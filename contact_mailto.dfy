/**
 * `POST /api/contact`, the variant in `app/api/contact/route.tsx`: the four
 * submitted fields are cut to 5000 characters, checked for presence and for an
 * address of the shape `local@domain.tld`, and then either handed to the mail
 * provider or answered with a `mailto:` link the visitor can open instead.
 * The provider is an input: what its `send` call reports, or that loading or
 * calling it threw.
 */
module ContactMailto {
  import opened Wrappers
  import opened Text
  import opened Uri

  // ---------------------------------------------------------------------------
  // The recipient

  const DefaultRecipient := "ankushrajsaha365@gmail.com"

  /** `TO_EMAIL`: `CONTACT_TO_EMAIL` trimmed, or the fixed address when that is unset or blank. */
  function Recipient(env: Option<string>): (r: string)
    ensures env.Some? && !Blank(env.value) ==> r == Trim(env.value)
    ensures env.None? || Blank(env.value) ==> r == DefaultRecipient
    ensures r != [] && !IsSpace(r[0]) && !IsSpace(r[|r| - 1])
  {
    if env.Some? && Trim(env.value) != "" then Trim(env.value) else DefaultRecipient
  }

  // ---------------------------------------------------------------------------
  // isEmail: /^[^\s@]+@[^\s@]+\.[^\s@]+$/

  /** Every character is in the class `[^\s@]`. */
  predicate Plain(s: string) {
    forall i :: 0 <= i < |s| ==> !IsSpace(s[i]) && s[i] != '@'
  }

  /** The pattern matches with its `@` at index `a` and its `\.` at index `d`, each of the three runs non-empty. */
  predicate EmailSplit(v: string, a: int, d: int) {
    0 < a && a + 1 < d < |v| - 1 && v[a] == '@' && v[d] == '.'
    && Plain(v[..a]) && Plain(v[a + 1..d]) && Plain(v[d + 1..])
  }

  /** `isEmail(v)`: the regular expression matches somewhere it can split `v`. */
  predicate IsEmail(v: string) {
    exists a, d | 0 < a < |v| && a + 1 < d < |v| - 1 :: EmailSplit(v, a, d)
  }

  /** `v[a]` is the only `@` of `v`. */
  predicate OnlyAt(v: string, a: int) {
    forall k :: 0 <= k < |v| && k != a ==> v[k] != '@'
  }

  /** The domain holds a `.` with text on both sides. */
  predicate Dotted(domain: string) {
    exists j | 0 < j < |domain| - 1 :: domain[j] == '.'
  }

  /** The characterisation the pattern stands for: a non-empty local part and a dotted domain around the one `@`, and no whitespace. */
  predicate AddressShape(v: string) {
    NoSpace(v) && exists a | 0 < a < |v| :: v[a] == '@' && OnlyAt(v, a) && Dotted(v[a + 1..])
  }

  lemma SplitHasShape(v: string, a: int, d: int)
    requires EmailSplit(v, a, d)
    ensures AddressShape(v)
  {
    forall k | 0 <= k < |v|
      ensures !IsSpace(v[k]) && (k != a ==> v[k] != '@')
    {
      if k < a { assert v[k] == v[..a][k]; }
      else if a < k < d { assert v[k] == v[a + 1..d][k - a - 1]; }
      else if d < k { assert v[k] == v[d + 1..][k - d - 1]; }
    }
    assert v[a + 1..][d - a - 1] == '.';
    assert Dotted(v[a + 1..]);
  }

  lemma PlainSlice(v: string, lo: int, hi: int)
    requires 0 <= lo <= hi <= |v| && NoSpace(v)
    requires forall k :: lo <= k < hi ==> v[k] != '@'
    ensures Plain(v[lo..hi])
  {
    var w := v[lo..hi];
    forall i | 0 <= i < |w| ensures !IsSpace(w[i]) && w[i] != '@' {
      assert w[i] == v[lo + i];
    }
  }

  lemma ShapeHasSplit(v: string, a: int)
    requires NoSpace(v) && 0 < a < |v| && v[a] == '@' && OnlyAt(v, a) && Dotted(v[a + 1..])
    ensures IsEmail(v)
  {
    var j :| 0 < j < |v[a + 1..]| - 1 && v[a + 1..][j] == '.';
    var d := a + 1 + j;
    PlainSlice(v, 0, a);
    PlainSlice(v, a + 1, d);
    PlainSlice(v, d + 1, |v|);
    assert v[0..a] == v[..a] && v[d + 1..|v|] == v[d + 1..];
    assert EmailSplit(v, a, d);
  }

  /** The pattern accepts exactly the strings of that shape. */
  lemma IsEmailShape(v: string)
    ensures IsEmail(v) <==> AddressShape(v)
  {
    if IsEmail(v) {
      var a, d :| EmailSplit(v, a, d);
      SplitHasShape(v, a, d);
    }
    if AddressShape(v) {
      var a :| 0 < a < |v| && v[a] == '@' && OnlyAt(v, a) && Dotted(v[a + 1..]);
      ShapeHasSplit(v, a);
    }
  }

  // ---------------------------------------------------------------------------
  // sanitize

  const MaxFieldLength := 5000

  /** `sanitize(t)`: the first 5000 characters of `t`. */
  function Sanitize(t: string): (r: string)
    ensures r <= t && |r| <= MaxFieldLength
    ensures |t| <= MaxFieldLength ==> r == t
    ensures |t| > MaxFieldLength ==> |r| == MaxFieldLength
  {
    if |t| <= MaxFieldLength then t else t[..MaxFieldLength]
  }

  // ---------------------------------------------------------------------------
  // The submission

  /** What `parseBody` produced: each field present or not. */
  datatype Incoming = Incoming(name: Option<string>, email: Option<string>,
                               subject: Option<string>, message: Option<string>)

  /** The four fields after `sanitize(raw.x || "")`. */
  datatype Fields = Fields(name: string, email: string, subject: string, message: string)

  /**
   * `sanitize(x || "")` of one field: an absent field reads as "", a present
   * one as its first `MaxFieldLength` characters, the whole of it when shorter.
   */
  predicate ReadsAs(x: Option<string>, r: string) {
    (x.None? ==> r == "") &&
    (x.Some? ==> r <= x.value && |r| == if |x.value| <= MaxFieldLength then |x.value| else MaxFieldLength)
  }

  function Read(raw: Incoming): (f: Fields)
    ensures ReadsAs(raw.name, f.name) && ReadsAs(raw.email, f.email)
    ensures ReadsAs(raw.subject, f.subject) && ReadsAs(raw.message, f.message)
  {
    Fields(Sanitize(raw.name.GetOr("")), Sanitize(raw.email.GetOr("")),
           Sanitize(raw.subject.GetOr("")), Sanitize(raw.message.GetOr("")))
  }

  /** All four fields are non-empty strings. */
  predicate Complete(f: Fields) {
    f.name != "" && f.email != "" && f.subject != "" && f.message != ""
  }

  // ---------------------------------------------------------------------------
  // buildMailto

  /** The subject line, both of the provider's message and of the link. */
  function SubjectLine(f: Fields): string {
    "[Portfolio] " + f.subject + " — " + f.name
  }

  /** The body of the link. */
  function BodyText(f: Fields): string {
    "Name: " + f.name + "\nEmail: " + f.email + "\n\n" + f.message
  }

  /** `buildMailto(fields)` with `TO_EMAIL` being `to`. */
  function BuildMailto(to: string, f: Fields): (r: string)
    ensures MailtoHead(to) <= r
  {
    Mailto(to, SubjectLine(f), BodyText(f))
  }

  // ---------------------------------------------------------------------------
  // POST

  /** What the provider did with the message. */
  datatype SendOutcome =
    | Accepted        // `send` resolved without an `error`
    | Reported        // `send` resolved with an `error`
    | Threw           // the import, the constructor or `send` threw

  const MissingFieldsText := "Please fill name, email, subject, and message."
  const InvalidEmailText := "Please provide a valid email address."
  const ProviderErrorText := "Email service returned an error. You can continue via your email app."
  const ProviderFailureText := "Email provider not available. You can continue via your email app."
  const NotConfiguredText := "Direct sending is not configured. Opening your email app is recommended."

  datatype ErrorCode = MissingFields | InvalidEmail | ProviderError | ProviderFailure | NotConfigured {
    function Name(): string {
      match this
      case MissingFields => "missing_fields"
      case InvalidEmail => "invalid_email"
      case ProviderError => "provider_error"
      case ProviderFailure => "provider_failure"
      case NotConfigured => "not_configured"
    }

    function Status(): nat {
      match this
      case MissingFields => 400
      case InvalidEmail => 400
      case ProviderError => 502
      case ProviderFailure => 502
      case NotConfigured => 503
    }

    function Message(): string {
      match this
      case MissingFields => MissingFieldsText
      case InvalidEmail => InvalidEmailText
      case ProviderError => ProviderErrorText
      case ProviderFailure => ProviderFailureText
      case NotConfigured => NotConfiguredText
    }
  }

  /** The JSON reply: `{ok: true}` with 200, or `{ok: false, error, message, mailto?}` with the error's status. */
  datatype Reply = Sent | Refused(error: ErrorCode, mailto: Option<string>) {
    function Status(): nat {
      if Sent? then 200 else error.Status()
    }
  }

  /**
   * The order of `POST`'s tests once the fields are read: missing fields, then
   * the address, then the key and the provider's outcome; `mailto` is the link
   * the refusals past validation carry.
   */
  function Decide(complete: bool, valid: bool, keySet: bool, outcome: SendOutcome, mailto: string): (r: Reply)
    ensures r.Sent? <==> complete && valid && keySet && outcome == Accepted
    ensures r.Refused? && r.Status() == 400 <==> !complete || !valid
    ensures r.Refused? && r.Status() == 400 ==> r.mailto.None?
    ensures r.Refused? && r.Status() != 400 ==> r.Status() in {502, 503} && r.mailto == Some(mailto)
  {
    if !complete then Refused(MissingFields, None)
    else if !valid then Refused(InvalidEmail, None)
    else if keySet then
      match outcome
      case Accepted => Sent
      case Reported => Refused(ProviderError, Some(mailto))
      case Threw => Refused(ProviderFailure, Some(mailto))
    else Refused(NotConfigured, Some(mailto))
  }

  /**
   * `POST(req)`: `raw` is what the body parsed to, `resendKey` is
   * `RESEND_API_KEY`, `toEnv` is `CONTACT_TO_EMAIL` and `outcome` is what the
   * provider does, looked at only when the key is set.
   */
  function Post(raw: Incoming, resendKey: Option<string>, toEnv: Option<string>,
                outcome: SendOutcome): (r: Reply)
    ensures r.Sent? <==> Complete(Read(raw)) && IsEmail(Read(raw).email) && IsSet(resendKey) && outcome == Accepted
    ensures r.Refused? && r.Status() == 400 ==> r.mailto.None?
    ensures r.Refused? && r.Status() != 400 ==>
      r.Status() in {502, 503} && r.mailto == Some(BuildMailto(Recipient(toEnv), Read(raw)))
  {
    var f := Read(raw);
    Decide(Complete(f), IsEmail(f.email), IsSet(resendKey), outcome, BuildMailto(Recipient(toEnv), f))
  }

  /** A missing field is reported first, whatever the address, the key and the provider. */
  lemma MissingFieldsFirst(raw: Incoming, resendKey: Option<string>, toEnv: Option<string>,
                           outcome: SendOutcome)
    requires raw.name.None? || raw.email.None? || raw.subject.None? || raw.message.None?
      || Read(raw).name == "" || Read(raw).email == "" || Read(raw).subject == "" || Read(raw).message == ""
    ensures Post(raw, resendKey, toEnv, outcome) == Refused(MissingFields, None)
    ensures Post(raw, resendKey, toEnv, outcome).Status() == 400
  {
  }

  /** With every field present, an address the pattern rejects is reported next, whatever the key and the provider. */
  lemma InvalidEmailSecond(raw: Incoming, resendKey: Option<string>, toEnv: Option<string>,
                           outcome: SendOutcome)
    requires Complete(Read(raw)) && !AddressShape(Read(raw).email)
    ensures Post(raw, resendKey, toEnv, outcome) == Refused(InvalidEmail, None)
    ensures Post(raw, resendKey, toEnv, outcome).Status() == 400
  {
    IsEmailShape(Read(raw).email);
  }

  /** Without a provider key a valid submission gets 503 and the link. */
  lemma NotConfiguredOffersLink(raw: Incoming, resendKey: Option<string>, toEnv: Option<string>,
                                outcome: SendOutcome)
    requires Complete(Read(raw)) && IsEmail(Read(raw).email) && !IsSet(resendKey)
    ensures var r := Post(raw, resendKey, toEnv, outcome);
      r.Status() == 503 && r.error == NotConfigured
      && r.mailto == Some(BuildMailto(Recipient(toEnv), Read(raw)))
  {
  }

  /**
   * With the key set, a reported error gives 502 "provider_error" and a throw
   * gives 502 "provider_failure", both with the same link; acceptance gives 200.
   */
  lemma ProviderOutcomes(raw: Incoming, resendKey: Option<string>, toEnv: Option<string>)
    requires Complete(Read(raw)) && IsEmail(Read(raw).email) && IsSet(resendKey)
    ensures Post(raw, resendKey, toEnv, Accepted) == Sent
    ensures Post(raw, resendKey, toEnv, Accepted).Status() == 200
    ensures var e := Post(raw, resendKey, toEnv, Reported);
      var t := Post(raw, resendKey, toEnv, Threw);
      && e.Status() == 502 && e.error == ProviderError
      && t.Status() == 502 && t.error == ProviderFailure
      && e.mailto == t.mailto == Some(BuildMailto(Recipient(toEnv), Read(raw)))
  {
  }

  /** Whatever link a refusal carries gives the visitor's message back, under the subject line. */
  lemma RefusalLinkCarriesMessage(raw: Incoming, resendKey: Option<string>, toEnv: Option<string>,
                                  outcome: SendOutcome)
    requires Post(raw, resendKey, toEnv, outcome).Refused?
    requires Post(raw, resendKey, toEnv, outcome).mailto.Some?
    ensures var link := Post(raw, resendKey, toEnv, outcome).mailto.value;
      && AfterLast(link, "&body=").Some?
      && Decode(AfterLast(link, "&body=").value) == Some(BodyText(Read(raw)))
      && Decode(BeforeFirst(link[|MailtoHead(Recipient(toEnv))|..], '&')) == Some(SubjectLine(Read(raw)))
  {
    MailtoRoundTrip(Recipient(toEnv), SubjectLine(Read(raw)), BodyText(Read(raw)));
  }
}
