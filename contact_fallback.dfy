/**
 * `POST /api/contact`, the variant in `app/api/contact/route.ts`: name, email and
 * message are trimmed and required, the subject has a default, and without a
 * configured recipient and provider key the reply is 503 with a `fallback`
 * link built from the public contact address. Loading the provider module, its
 * `send` call and the JSON parse are inputs.
 */
module ContactFallback {
  import opened Wrappers
  import opened Text
  import opened Uri
  import ContactMailto

  type SendOutcome = ContactMailto.SendOutcome

  /** The parsed JSON body; `None` where `req.json()` threw or gave a value whose fields cannot be read. */
  datatype Payload = Payload(name: Option<string>, email: Option<string>,
                             subject: Option<string>, message: Option<string>)

  datatype Fields = Fields(name: string, email: string, subject: string, message: string)

  const DefaultSubject := "New message from portfolio"

  /** The bindings of lines 26-29: `(x || fallback).trim()`. */
  function Read(p: Payload): (f: Fields)
    ensures f.name == Trim(p.name.GetOr("")) && f.email == Trim(p.email.GetOr(""))
    ensures f.message == Trim(p.message.GetOr(""))
    ensures p.subject == None || p.subject == Some("") ==> f.subject == DefaultSubject
    ensures p.subject.Some? && p.subject.value != "" ==> f.subject == Trim(p.subject.value)
  {
    var subject := if p.subject.Some? && p.subject.value != "" then p.subject.value else DefaultSubject;
    TrimUnchanged(DefaultSubject);
    Fields(Trim(p.name.GetOr("")), Trim(p.email.GetOr("")), Trim(subject), Trim(p.message.GetOr("")))
  }

  /** A subject of spaces is present, so it is trimmed to nothing rather than replaced by the default. */
  lemma BlankSubjectIsEmpty(p: Payload)
    requires p.subject.Some? && p.subject.value != "" && Blank(p.subject.value)
    ensures Read(p).subject == ""
  {
  }

  /** Name, email and message are all non-empty after trimming; the subject is not checked. */
  predicate Complete(f: Fields) {
    f.name != "" && f.email != "" && f.message != ""
  }

  // ---------------------------------------------------------------------------
  // The fallback link

  /** The body of the fallback link. */
  function LinkBody(f: Fields): string {
    "From: " + f.name + " <" + f.email + ">\n\n" + f.message
  }

  /** `fallback.mailto` when `NEXT_PUBLIC_CONTACT_EMAIL` is `address`. */
  function FallbackLink(address: string, f: Fields): (r: string)
    ensures MailtoHead(address) <= r
  {
    Mailto(address, f.subject, LinkBody(f))
  }

  // ---------------------------------------------------------------------------
  // The message handed to the provider

  /**
   * The first line, "You have a new message from your portfolio site:". It is
   * written in four pieces only so that `HeaderIsOneLine` can check each short
   * piece for a line feed; one long literal makes that proof far costlier.
   */
  const Header := "You have a " + "new message " + "from your " + "portfolio site:"

  lemma HeaderIsOneLine()
    ensures Free(Header, '\n')
  {
    var p, q, r, t := "You have a ", "new message ", "from your ", "portfolio site:";
    assert Free(p, '\n');
    assert Free(q, '\n');
    assert Free(r, '\n');
    assert Free(t, '\n');
    FreeConcat(p, q, '\n');
    FreeConcat(p + q, r, '\n');
    FreeConcat(p + q + r, t, '\n');
  }

  /** The third line: the sender's name and address. */
  function FromLine(f: Fields): string {
    "From: " + f.name + " <" + f.email + ">"
  }

  /** The fourth line. */
  function SubjectLine(f: Fields): string {
    "Subject: " + f.subject
  }

  /** The six lines of the plain-text message. */
  function ProviderLines(f: Fields): (ls: seq<string>)
    ensures |ls| == 6 && ls[1] == "" && ls[4] == "" && ls[5] == f.message
  {
    [Header, "", FromLine(f), SubjectLine(f), "", f.message]
  }

  /** The plain-text message: its six lines joined with line feeds. */
  function ProviderText(f: Fields): string {
    Join(ProviderLines(f), '\n')
  }

  /** The joined text is the header, a blank line, the sender, the subject, a blank line and the message. */
  lemma ProviderTextLayout(f: Fields)
    ensures ProviderText(f) == Header + "\n\n" + FromLine(f) + "\n" + SubjectLine(f) + "\n\n" + f.message
  {
    var ls := ProviderLines(f);
    var nl := ['\n'];
    assert Join(ls[4..], '\n') == "" + nl + f.message by { assert ls[4..][1..] == ls[5..]; }
    assert Join(ls[3..], '\n') == SubjectLine(f) + nl + ("" + nl + f.message) by { assert ls[3..][1..] == ls[4..]; }
    assert Join(ls[2..], '\n') == FromLine(f) + nl + Join(ls[3..], '\n') by { assert ls[2..][1..] == ls[3..]; }
    assert Join(ls[1..], '\n') == "" + nl + Join(ls[2..], '\n') by { assert ls[1..][1..] == ls[2..]; }
    assert Join(ls, '\n') == Header + nl + Join(ls[1..], '\n');
  }

  /** A reader splitting the text at line feeds finds the six lines, when no field holds a line feed. */
  lemma ProviderTextLines(f: Fields)
    requires Free(f.name, '\n') && Free(f.email, '\n') && Free(f.subject, '\n') && Free(f.message, '\n')
    ensures Split(ProviderText(f), '\n') == ProviderLines(f)
  {
    var ls := ProviderLines(f);
    forall k | 0 <= k < |ls| ensures Free(ls[k], '\n') {
      if k == 0 {
        HeaderIsOneLine();
      } else if k == 2 {
        var from := FromLine(f);
        forall i | 0 <= i < |from| ensures from[i] != '\n' {
          if 6 <= i < 6 + |f.name| { assert from[i] == f.name[i - 6]; }
          else if 8 + |f.name| <= i < 8 + |f.name| + |f.email| { assert from[i] == f.email[i - 8 - |f.name|]; }
        }
      } else if k == 3 {
        var subj := SubjectLine(f);
        forall i | 0 <= i < |subj| ensures subj[i] != '\n' {
          if 9 <= i { assert subj[i] == f.subject[i - 9]; }
        }
      }
    }
    SplitJoin(ls, '\n');
  }

  // ---------------------------------------------------------------------------
  // POST

  const MissingFieldsText := "Missing required fields (name, email, message)."
  const NotConfiguredText := "Email service not configured. Please set RESEND_API_KEY and CONTACT_TO_EMAIL."
  const ProviderFailedText := "Failed to send email via provider."
  const UnexpectedText := "Unexpected server error."

  datatype Reply =
    | Sent                              // 200 {ok: true}
    | MissingFields                     // 400
    | NotConfigured(mailto: Option<string>)   // 503, with `fallback.mailto`
    | ProviderFailed                    // 500, the provider reported an error
    | Unexpected                        // 500, something threw
  {
    function Status(): nat {
      match this
      case Sent => 200
      case MissingFields => 400
      case NotConfigured(_) => 503
      case ProviderFailed => 500
      case Unexpected => 500
    }

    /** The `error` text; every one is non-empty, so the page sees it as set. */
    function Error(): (e: Option<string>)
      ensures e.Some? <==> !Sent?
      ensures e.Some? ==> |e.value| > 0
    {
      match this
      case Sent => None
      case MissingFields => Some(MissingFieldsText)
      case NotConfigured(_) => Some(NotConfiguredText)
      case ProviderFailed => Some(ProviderFailedText)
      case Unexpected => Some(UnexpectedText)
    }
  }

  /**
   * `POST(req)`: `body` is the parsed body, `toEnv`, `keyEnv` and `publicEnv`
   * are `CONTACT_TO_EMAIL`, `RESEND_API_KEY` and `NEXT_PUBLIC_CONTACT_EMAIL`,
   * `loaded` says whether the provider module loaded when the file was
   * evaluated, and `outcome` is what its `send` call does.
   */
  function Post(body: Option<Payload>, toEnv: Option<string>, keyEnv: Option<string>,
                publicEnv: Option<string>, loaded: bool, outcome: SendOutcome): (r: Reply)
    ensures r.Sent? <==>
      body.Some? && Complete(Read(body.value)) && IsSet(toEnv) && IsSet(keyEnv) && loaded && outcome.Accepted?
    ensures r.Status() == 400 <==> body.Some? && !Complete(Read(body.value))
    ensures r.NotConfigured? ==> (r.mailto.Some? <==> IsSet(publicEnv))
    ensures r.NotConfigured? && r.mailto.Some? ==>
      body.Some? && publicEnv.Some? &&
      r.mailto.value == FallbackLink(publicEnv.value, Read(body.value))
    ensures r.Error().Some? <==> !r.Sent?
  {
    if body.None? then Unexpected
    else
      var f := Read(body.value);
      if !Complete(f) then MissingFields
      else if !IsSet(toEnv) || !IsSet(keyEnv) then
        NotConfigured(if IsSet(publicEnv) then Some(FallbackLink(publicEnv.value, f)) else None)
      // `new Resend(...)` throws when the module did not load
      else if !loaded then Unexpected
      else
        match outcome
        case Accepted => Sent
        case Reported => ProviderFailed
        case Threw => Unexpected
  }

  /** Missing fields are reported before the configuration is looked at; the subject and the address's shape never are. */
  lemma FieldsBeforeConfiguration(p: Payload, toEnv: Option<string>, keyEnv: Option<string>,
                                  publicEnv: Option<string>, loaded: bool, outcome: SendOutcome)
    ensures var r := Post(Some(p), toEnv, keyEnv, publicEnv, loaded, outcome);
      && (Blank(p.name.GetOr("")) || Blank(p.email.GetOr("")) || Blank(p.message.GetOr(""))
          <==> r == MissingFields)
  {
  }

  /** There is no address check: text the other variant's pattern rejects still gets past validation. */
  lemma AnyAddressPasses(p: Payload, toEnv: Option<string>, keyEnv: Option<string>,
                         publicEnv: Option<string>, loaded: bool, outcome: SendOutcome)
    requires Complete(Read(p)) && !ContactMailto.IsEmail(Read(p).email)
    ensures Post(Some(p), toEnv, keyEnv, publicEnv, loaded, outcome).Status() != 400
  {
  }

  /** Without a recipient or a key the reply is 503, and its link is present exactly when the public address is set. */
  lemma NotConfiguredFallback(p: Payload, toEnv: Option<string>, keyEnv: Option<string>,
                              publicEnv: Option<string>, loaded: bool, outcome: SendOutcome)
    requires Complete(Read(p)) && (!IsSet(toEnv) || !IsSet(keyEnv))
    ensures var r := Post(Some(p), toEnv, keyEnv, publicEnv, loaded, outcome);
      && r.Status() == 503
      && (IsSet(publicEnv) ==> r.mailto == Some(FallbackLink(publicEnv.value, Read(p))))
      && (!IsSet(publicEnv) ==> r.mailto == None)
  {
  }

  /** Every failure past validation is a 500: a body that does not parse, a provider that did not load, threw or reported an error. */
  lemma ServerErrors(body: Option<Payload>, toEnv: Option<string>, keyEnv: Option<string>,
                     publicEnv: Option<string>, loaded: bool, outcome: SendOutcome)
    requires body.None? || (Complete(Read(body.value)) && IsSet(toEnv) && IsSet(keyEnv)
      && (!loaded || !outcome.Accepted?))
    ensures Post(body, toEnv, keyEnv, publicEnv, loaded, outcome).Status() == 500
    ensures body.None? || !loaded || outcome.Threw? ==>
      Post(body, toEnv, keyEnv, publicEnv, loaded, outcome).Error() == Some(UnexpectedText)
  {
  }

  /** The 503 link reads back to the trimmed subject and to the sender line and message. */
  lemma FallbackLinkRoundTrip(address: string, f: Fields)
    ensures var link := FallbackLink(address, f);
      && AfterLast(link, "&body=") == Some(Encode(LinkBody(f)))
      && Decode(AfterLast(link, "&body=").value) == Some(LinkBody(f))
      && Decode(BeforeFirst(link[|MailtoHead(address)|..], '&')) == Some(f.subject)
  {
    MailtoRoundTrip(address, f.subject, LinkBody(f));
  }
}
