/**
 * The chat endpoint (`POST /api/chat`) as a function of its inputs.
 *
 * The reply is decided by a fixed ladder, first applicable step wins:
 *   1. whole-word keyword intents (pricing, then availability, then timeline),
 *      answered whatever the configuration;
 *   2. without an `OPENAI_API_KEY`, a table of substring "buckets" with a
 *      generic answer when none matches, sometimes followed by a suggestion;
 *   3. with a key, the completion provider's text;
 *   4. every exception becomes a 200 reply of type `error_fallback`.
 * The two `Math.random()` draws and the provider's outcome are parameters.
 */
module ChatRoute {
  import opened Wrappers
  import opened Text

  // ---------------------------------------------------------------------------
  // Request, provider outcome, reply

  datatype Role = User | Assistant

  /** A message of the conversation; `content` is `None` when the field is absent. */
  datatype ChatMessage = ChatMessage(role: Role, content: Option<string>)

  /**
   * The `context` field after destructuring with its default `[]`: an array of
   * strings, `null`, or some other value that is not an array.
   */
  datatype Context = Items(items: seq<string>) | Null | NotArray

  /**
   * The parsed JSON body; `messages` is `None` when the field is absent.
   * A body that is not JSON, or is `null`, is `None` one level up.
   */
  datatype ChatBody = ChatBody(messages: Option<seq<ChatMessage>>, context: Context)

  /**
   * What the completion request produced: the first choice's content (empty when
   * absent) and `usage.total_tokens` (0 when absent), or a failure (transport
   * error, a non-ok status, or a body without `choices`).
   */
  datatype Completion = Completed(content: string, totalTokens: nat) | Failed

  /** A value of `Math.random()`. */
  type Draw = r: real | 0.0 <= r < 1.0

  datatype Intent = Pricing | Availability | Timeline {
    function Name(): string {
      match this
      case Pricing => "pricing"
      case Availability => "availability"
      case Timeline => "timeline"
    }
  }

  /** The `metadata` object; each constructor is one of the four shapes the endpoint emits. */
  datatype Metadata =
    | Keyword(intent: Intent, conversationLength: nat, hasContext: bool)
    | Fallback(conversationLength: nat, hasContext: bool)
    | OpenAI(model: string, conversationLength: nat, tokensUsed: nat)
    | ErrorFallback
  {
    function ResponseType(): string {
      match this
      case Keyword(_, _, _) => "keyword"
      case Fallback(_, _) => "fallback"
      case OpenAI(_, _, _) => "openai"
      case ErrorFallback => "error_fallback"
    }

    /** `metadata.error`, present (and `true`) only on the error shape. */
    predicate Error() {
      ErrorFallback?
    }
  }

  /**
   * The `message` field: a fixed answer, perhaps followed by a space and a
   * suggestion, or text produced by the completion provider.
   */
  datatype Message = Fixed(reply: Canned, suggestion: Option<Suggestion>) | Generated(text: string) {
    function Text(): string {
      match this
      case Fixed(c, None) => Wording(c)
      case Fixed(c, Some(k)) => Wording(c) + " " + FollowUps[k]
      case Generated(t) => t
    }
  }

  datatype ChatReply = ChatReply(status: nat, message: Message, metadata: Metadata)

  // ---------------------------------------------------------------------------
  // The fixed answers

  /** Every fixed text the endpoint can answer with. */
  datatype Canned =
    | WebsitePricingReply | HourlyPricingReply | GeneralPricingReply | AvailabilityReply | SimpleTimelineReply | ComplexTimelineReply | GeneralTimelineReply
    | GreetingReply | SkillsReply | ProjectsReply | ContactReply | EducationReply | ExperienceReply | ExpertiseReply | AiMlReply | FrontendReply | BackendReply
    | WebsiteRatesReply | HourlyRatesReply | GeneralRatesReply | SimpleDeliveryReply | ComplexDeliveryReply | GeneralDeliveryReply | HiringReply | PortfolioReply | GenericReply
    | SorryReply | ConnectionIssueReply

  function Wording(c: Canned): string {
    match c
    case WebsitePricingReply => "For website development, Ankush’s rates start around ₹15,000 for a basic site and ₹25,000–50,000 for more complex apps. For a tailored quote, please email ankushrajsaha365@gmail.com with your requirements."
    case HourlyPricingReply => "Ankush’s typical hourly rate ranges from ₹500–₹800, depending on scope and complexity. For an exact estimate, please reach out at ankushrajsaha365@gmail.com."
    case GeneralPricingReply => "Pricing depends on scope. As a general guide: basic websites start at ₹15,000; complex apps ₹25,000–₹50,000; hourly work ₹500–₹800. For a precise quote, contact: ankushrajsaha365@gmail.com."
    case AvailabilityReply => "Yes—Ankush is currently available for new projects. He can typically start consultations right away and begin within 1–2 weeks. Email: ankushrajsaha365@gmail.com or call 7003897566 to confirm dates."
    case SimpleTimelineReply => "Simple websites or landing pages are usually delivered in 5–7 days."
    case ComplexTimelineReply => "Complex applications typically take 3–6 weeks, depending on features and integrations."
    case GeneralTimelineReply => "Typical timelines: simple sites 5–7 days; standard apps 2–3 weeks; complex apps 3–6 weeks. Share your scope for a precise estimate."
    case GreetingReply => "Hello! I'm here to help you learn more about Ankush Raj Saha. Feel free to ask about his skills, projects, education, or contact information!"
    case SkillsReply => "Ankush specializes in JavaScript, Python, React, Node.js, Machine Learning, TensorFlow, PyTorch, SQL, and Git. He's passionate about AI/ML technologies!"
    case ProjectsReply => "Ankush has worked on several projects including an AI Chat Assistant using Python & NLP, an E-commerce Website with React & Node.js, and a Data Visualization Dashboard using Python & Plotly."
    case ContactReply => "You can reach Ankush at ankushrajsaha365@gmail.com or call him at 7003897566. He's open to internships and collaborations!"
    case EducationReply => "Ankush is a 2nd-year B.Tech student at MCKV Institute of Engineering, specializing in Computer Science & Engineering with AI & ML."
    case ExperienceReply => "Ankush is currently building his experience through various projects and is actively seeking internships and collaboration opportunities in AI/ML and web development."
    case ExpertiseReply => "Ankush's expertise spans across multiple domains: Full-Stack Web Development (React, Node.js, JavaScript), AI & Machine Learning (Python, TensorFlow, PyTorch), Data Science & Visualization (Python, Plotly), and Database Management (SQL). He combines theoretical knowledge from his CS engineering studies with practical project experience."
    case AiMlReply => "Ankush has strong expertise in AI & Machine Learning! He's proficient in Python, TensorFlow, PyTorch, and NLP technologies. He's built AI chat assistants and works on ML projects as part of his specialization."
    case FrontendReply => "Ankush excels in frontend development! He's skilled in React, JavaScript, HTML/CSS, and modern UI/UX design principles. This very portfolio showcases his frontend capabilities with responsive design, smooth animations, and interactive elements."
    case BackendReply => "Ankush has solid backend development skills using Node.js, Python, and SQL databases. He can build robust APIs, handle server-side logic, and manage databases effectively."
    case WebsiteRatesReply => "For website development projects, Ankush offers competitive rates starting from ₹15,000 for basic websites and ₹25,000-50,000 for complex web applications. Please contact him at ankushrajsaha365@gmail.com for a detailed quote tailored to your project needs."
    case HourlyRatesReply => "Ankush's hourly rate for freelance work is ₹500-800 per hour, depending on the complexity and type of work. Contact him at ankushrajsaha365@gmail.com to discuss your specific requirements."
    case GeneralRatesReply => "For detailed pricing and project quotes, please contact Ankush directly at ankushrajsaha365@gmail.com or call him at 7003897566. He offers competitive rates and flexible pricing options."
    case SimpleDeliveryReply => "For simple websites or landing pages, Ankush can typically deliver within 5-7 days. Contact him at ankushrajsaha365@gmail.com to discuss your specific timeline requirements."
    case ComplexDeliveryReply => "Complex web applications and e-commerce sites typically take 3-6 weeks to complete, depending on features and integrations required. Contact him at ankushrajsaha365@gmail.com to discuss your project timeline."
    case GeneralDeliveryReply => "Project timelines vary based on complexity: Simple websites: 5-7 days, Standard web apps: 2-3 weeks, Complex applications: 3-6 weeks. Contact him at ankushrajsaha365@gmail.com to discuss your specific timeline needs."
    case HiringReply => "Yes, Ankush is currently available for new projects! He can start consultations immediately and begin new projects within 1-2 weeks. Contact him at ankushrajsaha365@gmail.com or call 7003897566 to discuss your project and check specific availability dates."
    case PortfolioReply => "You can see Ankush's work right here on this portfolio! He's built AI chat assistants, e-commerce websites, and data visualization dashboards. This very website demonstrates his modern web development capabilities!"
    case GenericReply => "I'm sorry, I don't have specific information about that topic. I can help you with questions about Ankush's skills, projects, education, contact information, availability, pricing, or project timelines. What would you like to know about Ankush's professional background?"
    case SorryReply => "I'm sorry, I couldn't process that request."
    case ConnectionIssueReply => "I'm Ankush's AI assistant! I'm having a brief connection issue, but I'm here to help. Ask me about his skills, projects, availability, or business services!"
  }

  // ---------------------------------------------------------------------------
  // Step 1: whole-word keyword intents

  const PricingWords: seq<string> :=
    ["price", "pricing", "rate", "rates", "charge", "fee", "budget", "quote", "cost"]
  const WebsiteWords: seq<string> := ["website", "web", "site"]
  const HourlyWords: seq<string> := ["hourly", "per hour", "hour"]
  const AvailabilityWords: seq<string> :=
    ["available", "availability", "free", "hire", "capacity", "schedule"]
  const TimelineWords: seq<string> :=
    ["timeline", "how long", "delivery", "duration", "turnaround", "timeframe", "deadline"]
  const SimpleWords: seq<string> := ["simple", "basic", "landing"]
  const ComplexWords: seq<string> := ["complex", "ecommerce", "application", "app"]

  datatype Answer = Answer(intent: Intent, reply: Canned)

  /**
   * The keyword ladder on the lower-cased last message; `None` lets the request
   * fall through. Pricing wins over availability, which wins over timeline.
   */
  function KeywordAnswer(m: string): (r: Option<Answer>)
    ensures r.Some? <==>
      HasAnyWord(m, PricingWords) || HasAnyWord(m, AvailabilityWords) || HasAnyWord(m, TimelineWords)
    ensures r.Some? ==> (r.value.intent == Pricing <==> HasAnyWord(m, PricingWords))
    ensures r.Some? ==> (r.value.intent == Availability <==>
      !HasAnyWord(m, PricingWords) && HasAnyWord(m, AvailabilityWords))
    ensures r.Some? && r.value.intent == Pricing ==>
      r.value.reply == (if HasAnyWord(m, WebsiteWords) then WebsitePricingReply
                        else if HasAnyWord(m, HourlyWords) then HourlyPricingReply
                        else GeneralPricingReply)
    ensures r.Some? && r.value.intent == Availability ==> r.value.reply == AvailabilityReply
    ensures r.Some? && r.value.intent == Timeline ==>
      r.value.reply == (if HasAnyWord(m, SimpleWords) then SimpleTimelineReply
                        else if HasAnyWord(m, ComplexWords) then ComplexTimelineReply
                        else GeneralTimelineReply)
  {
    if HasAnyWord(m, PricingWords) then
      Some(Answer(Pricing,
        if HasAnyWord(m, WebsiteWords) then WebsitePricingReply
        else if HasAnyWord(m, HourlyWords) then HourlyPricingReply
        else GeneralPricingReply))
    else if HasAnyWord(m, AvailabilityWords) then
      Some(Answer(Availability, AvailabilityReply))
    else if HasAnyWord(m, TimelineWords) then
      Some(Answer(Timeline,
        if HasAnyWord(m, SimpleWords) then SimpleTimelineReply
        else if HasAnyWord(m, ComplexWords) then ComplexTimelineReply
        else GeneralTimelineReply))
    else
      None
  }

  // ---------------------------------------------------------------------------
  // Step 2: substring buckets (no API key)

  /** The topics of the bucket table, in the order they are tested. */
  datatype Topic =
    | Greeting | Skills | Projects | ContactDetails | Education | Experience | Expertise
    | AiMl | Frontend | Backend | Rates | Delivery | Hiring | Portfolio

  /** The `includes` keys of each bucket. */
  const GreetingKeys: seq<string> := ["hello", "hi", "hey"]
  const SkillsKeys: seq<string> := ["skill", "technology"]
  const ProjectsKeys: seq<string> := ["project"]
  const ContactDetailsKeys: seq<string> := ["contact", "email", "phone"]
  const EducationKeys: seq<string> := ["education", "study", "college"]
  const ExperienceKeys: seq<string> := ["experience", "work"]
  const ExpertiseKeys: seq<string> := ["expertise", "expert", "knowledge", "specialization"]
  const AiMlKeys: seq<string> := ["ai", "machine learning", "ml", "artificial intelligence"]
  const FrontendKeys: seq<string> := ["frontend", "react", "javascript", "ui"]
  const BackendKeys: seq<string> := ["backend", "server", "api", "database"]
  const RatesKeys: seq<string> := ["charge", "fee", "payment", "cost", "price", "rate", "budget", "quote"]
  const DeliveryKeys: seq<string> := ["timeline", "how long", "delivery", "time", "duration"]
  const HiringKeys: seq<string> := ["available", "availability", "free", "hire"]
  const PortfolioKeys: seq<string> := ["portfolio", "examples", "previous work"]

  const Buckets: seq<Rule<Topic>> := [
    Rule(GreetingKeys, Greeting),
    Rule(SkillsKeys, Skills),
    Rule(ProjectsKeys, Projects),
    Rule(ContactDetailsKeys, ContactDetails),
    Rule(EducationKeys, Education),
    Rule(ExperienceKeys, Experience),
    Rule(ExpertiseKeys, Expertise),
    Rule(AiMlKeys, AiMl),
    Rule(FrontendKeys, Frontend),
    Rule(BackendKeys, Backend),
    Rule(RatesKeys, Rates),
    Rule(DeliveryKeys, Delivery),
    Rule(HiringKeys, Hiring),
    Rule(PortfolioKeys, Portfolio)
  ]

  const RatesWebsiteKeys: seq<string> := ["website", "web"]
  const RatesHourlyKeys: seq<string> := ["hourly", "per hour"]
  const DeliverySimpleKeys: seq<string> := ["simple", "basic", "landing"]
  const DeliveryComplexKeys: seq<string> := ["complex", "ecommerce", "application"]

  /** The rates bucket's own choice between a website, an hourly and a general answer. */
  function RatesReply(m: string): Canned {
    if IncludesAny(m, RatesWebsiteKeys) then WebsiteRatesReply
    else if IncludesAny(m, RatesHourlyKeys) then HourlyRatesReply
    else GeneralRatesReply
  }

  /** The delivery bucket's own choice between a simple, a complex and a general answer. */
  function DeliveryReply(m: string): Canned {
    if IncludesAny(m, DeliverySimpleKeys) then SimpleDeliveryReply
    else if IncludesAny(m, DeliveryComplexKeys) then ComplexDeliveryReply
    else GeneralDeliveryReply
  }

  const FollowUps: seq<string> := [
    "Would you like to know about his availability?",
    "Interested in seeing his project portfolio?",
    "Need information about pricing and timelines?",
    "Want to discuss a specific project requirement?"
  ]

  /** An index into `FollowUps`. */
  type Suggestion = k: nat | k < 4

  /** The answer of a bucket; the rates and delivery buckets consult their sub-rules. */
  function BucketReply(t: Topic, m: string): Canned {
    match t
    case Greeting => GreetingReply
    case Skills => SkillsReply
    case Projects => ProjectsReply
    case ContactDetails => ContactReply
    case Education => EducationReply
    case Experience => ExperienceReply
    case Expertise => ExpertiseReply
    case AiMl => AiMlReply
    case Frontend => FrontendReply
    case Backend => BackendReply
    case Rates => RatesReply(m)
    case Delivery => DeliveryReply(m)
    case Hiring => HiringReply
    case Portfolio => PortfolioReply
  }

  /** The bucket the lower-cased message selects, if any, as the route's if / else-if chain tests them. */
  function BucketOf(m: string): Option<Topic> {
      if IncludesAny(m, GreetingKeys) then Some(Greeting)
      else if IncludesAny(m, SkillsKeys) then Some(Skills)
      else if IncludesAny(m, ProjectsKeys) then Some(Projects)
      else if IncludesAny(m, ContactDetailsKeys) then Some(ContactDetails)
      else if IncludesAny(m, EducationKeys) then Some(Education)
      else if IncludesAny(m, ExperienceKeys) then Some(Experience)
      else if IncludesAny(m, ExpertiseKeys) then Some(Expertise)
      else if IncludesAny(m, AiMlKeys) then Some(AiMl)
      else if IncludesAny(m, FrontendKeys) then Some(Frontend)
      else if IncludesAny(m, BackendKeys) then Some(Backend)
      else if IncludesAny(m, RatesKeys) then Some(Rates)
      else if IncludesAny(m, DeliveryKeys) then Some(Delivery)
      else if IncludesAny(m, HiringKeys) then Some(Hiring)
      else if IncludesAny(m, PortfolioKeys) then Some(Portfolio)
      else None
  }

  /** The same selection read off the table: the topic of the first row one of whose keys occurs. */
  function TableBucket(m: string): Option<Topic> {
    match FirstRule(Buckets, m, 0)
    case Some(i) => Some(Buckets[i].value)
    case None => None
  }

  /**
   * The answer the route's chain settles on: the selected bucket's answer
   * (with the rates and delivery sub-choices written in place), or the
   * generic answer when no bucket matches.
   */
  function BucketReplyOf(m: string): Canned {
      if IncludesAny(m, GreetingKeys) then GreetingReply
      else if IncludesAny(m, SkillsKeys) then SkillsReply
      else if IncludesAny(m, ProjectsKeys) then ProjectsReply
      else if IncludesAny(m, ContactDetailsKeys) then ContactReply
      else if IncludesAny(m, EducationKeys) then EducationReply
      else if IncludesAny(m, ExperienceKeys) then ExperienceReply
      else if IncludesAny(m, ExpertiseKeys) then ExpertiseReply
      else if IncludesAny(m, AiMlKeys) then AiMlReply
      else if IncludesAny(m, FrontendKeys) then FrontendReply
      else if IncludesAny(m, BackendKeys) then BackendReply
      else if IncludesAny(m, RatesKeys) then RatesReply(m)
      else if IncludesAny(m, DeliveryKeys) then DeliveryReply(m)
      else if IncludesAny(m, HiringKeys) then HiringReply
      else if IncludesAny(m, PortfolioKeys) then PortfolioReply
      else GenericReply
  }

  /** `Math.floor(Math.random() * 4)`. */
  function FollowUpIndex(pick: Draw): (k: Suggestion)
    ensures k as real <= pick * 4.0 < k as real + 1.0
  {
    (pick * 4.0).Floor
  }

  /** A suggestion is appended when the first draw exceeds 0.3 and the message contains neither "hello" nor "hi". */
  predicate WantsFollowUp(m: string, gate: Draw) {
    gate > 0.3 && !Includes(m, "hello") && !Includes(m, "hi")
  }


  /** The bucket-table answer for the lower-cased message, given the two random draws. */
  function FallbackAnswer(m: string, gate: Draw, pick: Draw): (a: Message)
    ensures a.Fixed?
    ensures BucketOf(m).None? ==> a == Fixed(GenericReply, None)
    ensures BucketOf(m).Some? ==> a.reply == BucketReply(BucketOf(m).value, m)
    ensures a.suggestion.Some? <==> BucketOf(m).Some? && WantsFollowUp(m, gate)
    ensures a.suggestion.Some? ==> a.suggestion.value == FollowUpIndex(pick)
  {
    Fixed(BucketReplyOf(m),
      if BucketOf(m).Some? && WantsFollowUp(m, gate) then Some(FollowUpIndex(pick)) else None)
  }

  /** The chain and the table agree: the route's tests are a first-match scan of `Buckets`. */
  lemma BucketOfIsTable(m: string)
    ensures BucketOf(m) == TableBucket(m)
  {
    FirstRuleStep(Buckets, m, 0);
    FirstRuleStep(Buckets, m, 1);
    FirstRuleStep(Buckets, m, 2);
    FirstRuleStep(Buckets, m, 3);
    FirstRuleStep(Buckets, m, 4);
    FirstRuleStep(Buckets, m, 5);
    FirstRuleStep(Buckets, m, 6);
    FirstRuleStep(Buckets, m, 7);
    FirstRuleStep(Buckets, m, 8);
    FirstRuleStep(Buckets, m, 9);
    FirstRuleStep(Buckets, m, 10);
    FirstRuleStep(Buckets, m, 11);
    FirstRuleStep(Buckets, m, 12);
    FirstRuleStep(Buckets, m, 13);
  }

  /**
   * The if / else-if chain of `includes` tests of the no-key block: it sets the
   * answer of the first bucket whose keys the message contains, and `foundMatch`.
   */
  method MatchBucket(m: string) returns (reply: Canned, foundMatch: bool)
    ensures foundMatch <==> BucketOf(m).Some?
    ensures reply == BucketReplyOf(m)
  {
    reply := GenericReply;
    foundMatch := false;
    if IncludesAny(m, GreetingKeys) {
      reply := GreetingReply;
      foundMatch := true;
    } else if IncludesAny(m, SkillsKeys) {
      reply := SkillsReply;
      foundMatch := true;
    } else if IncludesAny(m, ProjectsKeys) {
      reply := ProjectsReply;
      foundMatch := true;
    } else if IncludesAny(m, ContactDetailsKeys) {
      reply := ContactReply;
      foundMatch := true;
    } else if IncludesAny(m, EducationKeys) {
      reply := EducationReply;
      foundMatch := true;
    } else if IncludesAny(m, ExperienceKeys) {
      reply := ExperienceReply;
      foundMatch := true;
    } else if IncludesAny(m, ExpertiseKeys) {
      reply := ExpertiseReply;
      foundMatch := true;
    } else if IncludesAny(m, AiMlKeys) {
      reply := AiMlReply;
      foundMatch := true;
    } else if IncludesAny(m, FrontendKeys) {
      reply := FrontendReply;
      foundMatch := true;
    } else if IncludesAny(m, BackendKeys) {
      reply := BackendReply;
      foundMatch := true;
    } else if IncludesAny(m, RatesKeys) {
      if IncludesAny(m, RatesWebsiteKeys) {
        reply := WebsiteRatesReply;
      } else if IncludesAny(m, RatesHourlyKeys) {
        reply := HourlyRatesReply;
      } else {
        reply := GeneralRatesReply;
      }
      foundMatch := true;
    } else if IncludesAny(m, DeliveryKeys) {
      if IncludesAny(m, DeliverySimpleKeys) {
        reply := SimpleDeliveryReply;
      } else if IncludesAny(m, DeliveryComplexKeys) {
        reply := ComplexDeliveryReply;
      } else {
        reply := GeneralDeliveryReply;
      }
      foundMatch := true;
    } else if IncludesAny(m, HiringKeys) {
      reply := HiringReply;
      foundMatch := true;
    } else if IncludesAny(m, PortfolioKeys) {
      reply := PortfolioReply;
      foundMatch := true;
    }
  }

  /**
   * The no-key block as the route runs it: the bucket chain, the generic answer
   * when no bucket matched, then, when one did, the first draw decides whether a
   * suggestion chosen by the second draw is appended (`Message.Text` renders the
   * pair as the string the route builds with `+=`).
   */
  method FallbackReply(lastMessage: string, gate: Draw, pick: Draw)
    returns (reply: Canned, suggestion: Option<Suggestion>)
    ensures Fixed(reply, suggestion) == FallbackAnswer(lastMessage, gate, pick)
  {
    var m := lastMessage;
    var foundMatch;
    reply, foundMatch := MatchBucket(m);
    suggestion := None;
    if !foundMatch {
      reply := GenericReply;
    }

    if foundMatch {
      if gate > 0.3 && !Includes(m, "hello") && !Includes(m, "hi") {
        suggestion := Some(FollowUpIndex(pick));
      }
    }
  }

  // ---------------------------------------------------------------------------
  // The endpoint

  /** The reply of the `catch` block. */
  const ErrorReply := ChatReply(200, Fixed(ConnectionIssueReply, None), ErrorFallback)

  /**
   * The body gets past the destructuring and the first log line: it parsed,
   * `messages` is present and `context` is not `null`.
   */
  predicate Readable(body: Option<ChatBody>) {
    body.Some? && body.value.messages.Some? && !body.value.context.Null?
  }

  /** The lower-cased content of the last message, `""` when there is none. */
  function LastMessage(msgs: seq<ChatMessage>): string {
    if |msgs| > 0 && msgs[|msgs| - 1].content.Some? then LowerStr(msgs[|msgs| - 1].content.value)
    else ""
  }

  /** `Array.isArray(context) ? context.length > 0 : false`. */
  predicate HasContext(ctx: Context) {
    ctx.Items? && |ctx.items| > 0
  }

  /**
   * `POST /api/chat`. `apiKey` is `OPENAI_API_KEY`, `gate` and `pick` are the two
   * `Math.random()` draws of the suggestion rule, and `provider` is what the
   * completion request would produce; each is consulted only where the route
   * reaches it.
   */
  function Resolve(body: Option<ChatBody>, apiKey: Option<string>, gate: Draw, pick: Draw,
                   provider: Completion): (r: ChatReply)
    ensures r.status == 200
    ensures r.metadata.Error() ==> r == ErrorReply
    ensures !Readable(body) ==> r.metadata.Error()
  {
    if !Readable(body) then ErrorReply
    else
      var msgs := body.value.messages.value;
      var ctx := body.value.context;
      var m := LastMessage(msgs);
      match KeywordAnswer(m)
      case Some(a) => ChatReply(200, Fixed(a.reply, None), Keyword(a.intent, |msgs|, HasContext(ctx)))
      case None =>
        // `context.join` throws on a value that is not an array
        if ctx.NotArray? then ErrorReply
        else if !IsSet(apiKey) then
          ChatReply(200, FallbackAnswer(m, gate, pick), Fallback(|msgs|, |ctx.items| > 0))
        else
          match provider
          case Failed => ErrorReply
          case Completed(content, tokens) =>
            ChatReply(200, if content == "" then Fixed(SorryReply, None) else Generated(content),
                      OpenAI("gpt-3.5-turbo", |msgs|, tokens))
  }

  /**
   * A keyword reply is decided before the key, the draws or the provider are
   * looked at, so none of them changes it; its metadata has type "keyword", the
   * conversation length and whether the context is a non-empty array.
   */
  lemma KeywordFirst(body: Option<ChatBody>, apiKey: Option<string>, gate: Draw, pick: Draw,
                     provider: Completion, apiKey': Option<string>, gate': Draw, pick': Draw,
                     provider': Completion)
    requires Readable(body)
    requires KeywordAnswer(LastMessage(body.value.messages.value)).Some?
    ensures var r := Resolve(body, apiKey, gate, pick, provider);
      var a := KeywordAnswer(LastMessage(body.value.messages.value)).value;
      && r == Resolve(body, apiKey', gate', pick', provider')
      && r.message == Fixed(a.reply, None)
      && r.metadata.ResponseType() == "keyword"
      && r.metadata.intent == a.intent
      && r.metadata.conversationLength == |body.value.messages.value|
      && (r.metadata.hasContext <==> body.value.context.Items? && |body.value.context.items| > 0)
  {
  }

  /**
   * Pricing words win over availability and timeline words: a message with a
   * whole-word pricing term gets the pricing intent whatever else it contains.
   */
  lemma PricingFirst(body: Option<ChatBody>, apiKey: Option<string>, gate: Draw, pick: Draw,
                     provider: Completion)
    requires Readable(body)
    requires HasAnyWord(LastMessage(body.value.messages.value), PricingWords)
    ensures Resolve(body, apiKey, gate, pick, provider).metadata.Keyword?
    ensures Resolve(body, apiKey, gate, pick, provider).metadata.intent == Pricing
  {
  }

  /**
   * Without a key and without a keyword, the bucket table answers: type
   * "fallback", and the message is the generic text, with nothing appended,
   * exactly when no bucket matches.
   */
  lemma NoKeyFallback(body: Option<ChatBody>, apiKey: Option<string>, gate: Draw, pick: Draw,
                      provider: Completion)
    requires Readable(body) && body.value.context.Items? && !IsSet(apiKey)
    requires KeywordAnswer(LastMessage(body.value.messages.value)).None?
    ensures var r := Resolve(body, apiKey, gate, pick, provider);
      var m := LastMessage(body.value.messages.value);
      && r.metadata == Fallback(|body.value.messages.value|, |body.value.context.items| > 0)
      && r.metadata.ResponseType() == "fallback"
      && (r.message == Fixed(GenericReply, None) <==> BucketOf(m).None?)
  {
  }

  /**
   * The suggestion rule: when a bucket matches, the message is that bucket's
   * answer followed by " " and one of the four suggestions exactly when the
   * first draw exceeds 0.3 and the message contains neither "hello" nor "hi";
   * otherwise it is the bucket's answer alone.
   */
  lemma SuggestionRule(m: string, gate: Draw, pick: Draw)
    requires BucketOf(m).Some?
    ensures var text := FallbackAnswer(m, gate, pick).Text();
      var answer := Wording(BucketReply(BucketOf(m).value, m));
      && (WantsFollowUp(m, gate) ==> exists k: Suggestion :: text == answer + " " + FollowUps[k])
      && (!WantsFollowUp(m, gate) ==> text == answer)
  {
    if WantsFollowUp(m, gate) {
      var k := FollowUpIndex(pick);
      assert FallbackAnswer(m, gate, pick).Text()
        == Wording(BucketReply(BucketOf(m).value, m)) + " " + FollowUps[k];
    }
  }

  /**
   * Bucket tests are unanchored substrings: any message containing "hi" (say
   * "which", or "his") takes the greeting bucket, and never gets a suggestion.
   */
  lemma HiIsGreeting(m: string, gate: Draw, pick: Draw)
    requires Includes(m, "hi")
    ensures BucketOf(m) == Some(Greeting)
    ensures FallbackAnswer(m, gate, pick) == Fixed(GreetingReply, None)
  {
    assert GreetingKeys[1] == "hi";
  }

  /** "tell me about his skills" holds the skills key, but "his" holds "hi", so it is a greeting. */
  lemma HisSkillsIsGreeting(gate: Draw, pick: Draw)
    ensures IncludesAny("tell me about his skills", SkillsKeys)
    ensures FallbackAnswer("tell me about his skills", gate, pick) == Fixed(GreetingReply, None)
  {
    var m := "tell me about his skills";
    assert SubstringAt(m, "hi", 14);
    assert SubstringAt(m, "skill", 18);
    assert SkillsKeys[0] == "skill";
    HiIsGreeting(m, gate, pick);
  }

  /**
   * Keywords are whole words and buckets are substrings: "cost" inside
   * "costume" is a bucket key hit but not a pricing keyword.
   */
  lemma CostumeIsNotPricing()
    ensures Includes("costume", "cost")
    ensures !HasWord("costume", "cost")
  {
    assert SubstringAt("costume", "cost", 0);
  }

  /** A provider answer is passed through, with the fixed apology standing in for empty content. */
  lemma ProviderAnswer(body: Option<ChatBody>, apiKey: Option<string>, gate: Draw, pick: Draw,
                       content: string, tokens: nat)
    requires Readable(body) && body.value.context.Items? && IsSet(apiKey)
    requires KeywordAnswer(LastMessage(body.value.messages.value)).None?
    ensures var r := Resolve(body, apiKey, gate, pick, Completed(content, tokens));
      && r.metadata == OpenAI("gpt-3.5-turbo", |body.value.messages.value|, tokens)
      && r.message == (if content == "" then Fixed(SorryReply, None) else Generated(content))
  {
  }

  /**
   * Every failure is answered with status 200, type "error_fallback" and
   * `error` set: an unreadable body, a context that is not an array once the
   * keyword ladder has passed, and a failed completion request.
   */
  lemma FailuresAreErrorFallback(body: Option<ChatBody>, apiKey: Option<string>, gate: Draw,
                                 pick: Draw, provider: Completion)
    requires !Readable(body)
      || (KeywordAnswer(LastMessage(body.value.messages.value)).None?
          && (body.value.context.NotArray? || (IsSet(apiKey) && provider.Failed?)))
    ensures var r := Resolve(body, apiKey, gate, pick, provider);
      r.status == 200 && r.metadata.ResponseType() == "error_fallback" && r.metadata.Error()
  {
  }
}
