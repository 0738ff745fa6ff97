/**
 * The contact form of the portfolio page (`app/page.tsx`): its status moves
 * from idle to sending and on to success, fallback or error as the reply of
 * `/api/contact` comes in, and the back-to-top button follows the scroll
 * position. The server's reply is an input; both variants of the contact
 * route are connected to it by their JSON shapes.
 */
module Portfolio {
  import opened Wrappers
  import opened Text
  import ContactMailto
  import ContactFallback
  import opened Uri

  datatype Status = Idle | Sending | Success | Error | Fallback

  /** The form's state object, sent as the JSON body. */
  datatype FormFields = FormFields(name: string, email: string, subject: string, message: string)

  const EmptyForm := FormFields("", "", "", "")

  /** The fields of the parsed reply the page reads, each as JavaScript truthiness sees it. */
  datatype ReplyData = ReplyData(ok: bool, error: Option<string>, fallbackMailto: Option<string>)

  /** What `fetch` produced: a status and the parsed JSON (`None` where `res.json()` threw), or a throw. */
  datatype Outcome = Answered(status: nat, data: Option<ReplyData>) | NetworkError

  /** What the page makes of an outcome. */
  datatype Verdict = Delivered | OpenMail(link: string) | Failed(message: string)

  const FillPrompt := "Please fill in your name, email, and message."
  const RetryPrompt := "Failed to send your message. Please try again."
  const NetworkPrompt := "Network error. Please check your connection and try again."

  /** `!form.name.trim() || !form.email.trim() || !form.message.trim()`; the subject is not looked at. */
  predicate Incomplete(f: FormFields) {
    Blank(f.name) || Blank(f.email) || Blank(f.message)
  }

  /**
   * Lines 91-110 as a function of the outcome: a 2xx reply whose `ok` is truthy
   * is a delivery; a 503 whose `fallback.mailto` is truthy opens that link;
   * anything else fails with the reply's `error`, the retry text, or the
   * network text when `fetch` threw.
   */
  function Judge(o: Outcome): (v: Verdict)
    ensures v.Delivered? <==> o.Answered? && 200 <= o.status < 300 && o.data.Some? && o.data.value.ok
    ensures v.OpenMail? <==>
      o.Answered? && !v.Delivered? && o.status == 503 && o.data.Some? && IsSet(o.data.value.fallbackMailto)
    ensures v.OpenMail? ==> v.link == o.data.value.fallbackMailto.value
    ensures v.Failed? && o.Answered? && o.data.Some? && IsSet(o.data.value.error) ==> v.message == o.data.value.error.value
    ensures v.Failed? && o.Answered? && !(o.data.Some? && IsSet(o.data.value.error)) ==> v.message == RetryPrompt
    ensures v.Failed? && v.message != NetworkPrompt ==> o.Answered?
  {
    match o
    case NetworkError => Failed(NetworkPrompt)
    case Answered(status, data) =>
      if 200 <= status < 300 && data.Some? && data.value.ok then Delivered
      else if status == 503 && data.Some? && IsSet(data.value.fallbackMailto) then OpenMail(data.value.fallbackMailto.value)
      else Failed(if data.Some? && IsSet(data.value.error) then data.value.error.value else RetryPrompt)
  }

  class ContactForm {
    var form: FormFields
    var status: Status
    var errorMsg: Option<string>
    /** Where `window.location.href` was last sent, if anywhere. */
    var location: Option<string>
    var showBackToTop: bool

    /** The first render. */
    constructor ()
      ensures form == EmptyForm && status == Idle && errorMsg == None && location == None && !showBackToTop
    {
      form := EmptyForm;
      status := Idle;
      errorMsg := None;
      location := None;
      showBackToTop := false;
    }

    /** An input's `onChange`; the inputs are disabled while sending. */
    method Edit(f: FormFields)
      requires status != Sending
      modifies this
      ensures form == f && status == old(status) && errorMsg == old(errorMsg)
      ensures location == old(location) && showBackToTop == old(showBackToTop)
    {
      form := f;
    }

    /** The scroll listener. */
    method OnScroll(scrollY: real)
      modifies this
      ensures showBackToTop <==> scrollY > 300.0
      ensures form == old(form) && status == old(status) && errorMsg == old(errorMsg) && location == old(location)
    {
      showBackToTop := scrollY > 300.0;
    }

    /**
     * The synchronous part of `handleContactSubmit`, up to the request: an
     * incomplete form is refused on the spot with no request; otherwise the
     * status becomes sending and the form is the request's body. The submit
     * button is disabled while sending.
     */
    method Submit() returns (request: Option<FormFields>)
      requires status != Sending
      modifies this
      ensures Incomplete(old(form)) ==> request == None && status == Error && errorMsg == Some(FillPrompt)
      ensures !Incomplete(old(form)) ==> request == Some(old(form)) && status == Sending && errorMsg == None
      ensures form == old(form) && location == old(location) && showBackToTop == old(showBackToTop)
    {
      errorMsg := None;
      if Blank(form.name) || Blank(form.email) || Blank(form.message) {
        status := Error;
        errorMsg := Some(FillPrompt);
        request := None;
        return;
      }
      status := Sending;
      request := Some(form);
    }

    /** The rest of `handleContactSubmit`, once the request has an outcome. */
    method Receive(o: Outcome)
      requires status == Sending
      modifies this
      ensures Judge(o) == Delivered ==>
        status == Success && form == EmptyForm && errorMsg == old(errorMsg) && location == old(location)
      ensures Judge(o).OpenMail? ==>
        status == Fallback && location == Some(Judge(o).link) && form == old(form) && errorMsg == old(errorMsg)
      ensures Judge(o).Failed? ==>
        status == Error && errorMsg == Some(Judge(o).message) && form == old(form) && location == old(location)
      ensures showBackToTop == old(showBackToTop)
    {
      if o.NetworkError? {
        status := Error;
        errorMsg := Some(NetworkPrompt);
        return;
      }
      var data := o.data;
      if 200 <= o.status < 300 && data.Some? && data.value.ok {
        status := Success;
        form := EmptyForm;
        return;
      }
      if o.status == 503 && data.Some? && IsSet(data.value.fallbackMailto) {
        status := Fallback;
        location := data.value.fallbackMailto;
        return;
      }
      status := Error;
      if data.Some? && IsSet(data.value.error) {
        errorMsg := data.value.error;
      } else {
        errorMsg := Some(RetryPrompt);
      }
    }
  }

  // ---------------------------------------------------------------------------
  // The two contact routes, as the page sees their replies

  /** The body the page posts, as the route in `route.tsx` reads it: every field is present. */
  function AsIncoming(f: FormFields): ContactMailto.Incoming {
    ContactMailto.Incoming(Some(f.name), Some(f.email), Some(f.subject), Some(f.message))
  }

  /** The same body as the route in `route.ts` reads it. */
  function AsPayload(f: FormFields): ContactFallback.Payload {
    ContactFallback.Payload(Some(f.name), Some(f.email), Some(f.subject), Some(f.message))
  }

  /** The JSON reply of the `route.tsx` variant: `mailto` sits at the top level, where the page does not look. */
  function FromMailtoRoute(r: ContactMailto.Reply): (o: Outcome)
    ensures o.Answered? && o.status == r.Status() && o.data.Some? && o.data.value.fallbackMailto == None
  {
    match r
    case Sent => Answered(200, Some(ReplyData(true, None, None)))
    case Refused(code, _) => Answered(code.Status(), Some(ReplyData(false, Some(code.Name()), None)))
  }

  /** The JSON reply of the `route.ts` variant: the link sits under `fallback`. */
  function FromFallbackRoute(r: ContactFallback.Reply): (o: Outcome)
    ensures o.Answered? && o.status == r.Status() && o.data.Some?
    ensures o.data.value.ok <==> r.Sent?
  {
    Answered(r.Status(), Some(ReplyData(r.Sent?, r.Error(),
                                        if r.NotConfigured? then r.mailto else None)))
  }

  /**
   * With the `route.tsx` variant the page never opens the mail app: its 503
   * carries the link at the top level, so the page shows the error code instead.
   */
  lemma MailtoRouteNeverFallsBack(f: FormFields, resendKey: Option<string>, toEnv: Option<string>,
                                  outcome: ContactMailto.SendOutcome)
    ensures var r := ContactMailto.Post(AsIncoming(f), resendKey, toEnv, outcome);
      && !Judge(FromMailtoRoute(r)).OpenMail?
      && (r.Sent? <==> Judge(FromMailtoRoute(r)) == Delivered)
      && (r.Refused? ==> Judge(FromMailtoRoute(r)) == Failed(r.error.Name()))
  {
  }

  /**
   * With the `route.ts` variant a 503 that carries a link opens it, and the
   * link is the one built from the submitted form; without the public address
   * the page shows the configuration error.
   */
  lemma FallbackRouteOpensLink(f: FormFields, toEnv: Option<string>, keyEnv: Option<string>,
                               publicEnv: Option<string>, loaded: bool,
                               outcome: ContactMailto.SendOutcome)
    requires !Incomplete(f) && (!IsSet(toEnv) || !IsSet(keyEnv))
    ensures var r := ContactFallback.Post(Some(AsPayload(f)), toEnv, keyEnv, publicEnv, loaded, outcome);
      && (IsSet(publicEnv) ==>
            Judge(FromFallbackRoute(r)) == OpenMail(ContactFallback.FallbackLink(publicEnv.value,
                                                                                 ContactFallback.Read(AsPayload(f)))))
      && (!IsSet(publicEnv) ==> Judge(FromFallbackRoute(r)).Failed?)
  {
    var p := AsPayload(f);
    var g := ContactFallback.Read(p);
    assert ContactFallback.Complete(g);
    ContactFallback.NotConfiguredFallback(p, toEnv, keyEnv, publicEnv, loaded, outcome);
    var r := ContactFallback.Post(Some(p), toEnv, keyEnv, publicEnv, loaded, outcome);
    assert r.NotConfigured?;
    JudgeNotConfigured(r.mailto);
    if IsSet(publicEnv) {
      assert |MailtoHead(publicEnv.value)| > 0;
    }
  }

  /** A 503 of the `route.ts` variant opens its link when the link is truthy and fails otherwise. */
  lemma JudgeNotConfigured(m: Option<string>)
    ensures Judge(FromFallbackRoute(ContactFallback.NotConfigured(m))) ==
      if IsSet(m) then OpenMail(m.value) else Failed(ContactFallback.NotConfigured(m).Error().value)
  {
  }

  /**
   * The page does not check the subject, but the `route.tsx` variant requires
   * it: a form with an empty subject passes the page's check and comes back as
   * the "missing_fields" error.
   */
  lemma EmptySubjectRejectedByMailtoRoute(f: FormFields, resendKey: Option<string>, toEnv: Option<string>,
                                          outcome: ContactMailto.SendOutcome)
    requires !Incomplete(f) && f.subject == ""
    ensures var r := ContactMailto.Post(AsIncoming(f), resendKey, toEnv, outcome);
      Judge(FromMailtoRoute(r)) == Failed("missing_fields")
  {
  }
}
