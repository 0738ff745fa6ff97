/**
 * The floating chat widget of `components/chatbot.tsx`: a list of messages that
 * only grows, an input box, and a keyword classifier that picks one of six
 * fixed answers. The reply is scheduled with a one-second timer; here each
 * scheduled reply waits in `pending` until `Deliver` fires it, in order.
 */
module Chatbot {
  import opened Wrappers
  import opened Text

  /** The keys of `botResponses`. */
  datatype Topic = Skills | Projects | Experience | Education | Contact | Default

  /** What a message shows: the opening greeting, what the visitor typed, or a fixed answer. */
  datatype Content = Welcome | Said(text: string) | Answer(topic: Topic) {
    function Text(): string {
      match this
      case Welcome => "Hi! I'm Ankush's AI assistant. Ask me anything about his skills, projects, or experience!"
      case Said(t) => t
      case Answer(Skills) =>
        "Ankush is proficient in JavaScript, Python, React, Node.js, Machine Learning, TensorFlow, PyTorch, SQL, Git, and HTML/CSS. He's particularly passionate about AI/ML technologies!"
      case Answer(Projects) =>
        "Ankush has worked on several exciting projects including an AI Chat Assistant using Python and NLP, a full-stack E-commerce Website with React and Node.js, and a Data Visualization Dashboard with Python and Plotly."
      case Answer(Experience) =>
        "Ankush is currently a 2nd-year B.Tech student at MCKV Institute of Engineering, specializing in AI & ML. He's actively building his experience through academic projects and is open to internships and collaborative opportunities."
      case Answer(Education) =>
        "Ankush is pursuing B.Tech in Computer Science & Engineering with AI & ML specialization at MCKV Institute of Engineering."
      case Answer(Contact) =>
        "You can reach Ankush at ankushrajsaha365@gmail.com or call him at 7003897566. He's also available on GitHub and LinkedIn!"
      case Answer(Default) =>
        "That's a great question! Ankush is passionate about technology and always eager to learn. Feel free to ask about his skills, projects, education, or how to contact him!"
    }
  }

  /** One entry of the list; the timestamp is left out. */
  datatype Message = Message(id: nat, content: Content)

  /** A reply the timer will add: its id and the input captured when it was scheduled. */
  datatype Scheduled = Scheduled(id: nat, input: string)

  // ---------------------------------------------------------------------------
  // The classifier

  const SkillsWords := ["skill", "technology", "programming"]
  const ProjectsWords := ["project", "work", "build"]
  const ExperienceWords := ["experience", "internship", "job"]
  const EducationWords := ["education", "study", "college"]
  const ContactWords := ["contact", "email", "phone"]

  /** The classifier as a first-match table, in the order of its tests. */
  const Topics := [Rule(SkillsWords, Skills), Rule(ProjectsWords, Projects), Rule(ExperienceWords, Experience),
                   Rule(EducationWords, Education), Rule(ContactWords, Contact)]

  /** The topic of the lower-cased input: the first row one of whose words it includes, else the default. */
  function Classify(input: string): Topic {
    Choose(Topics, input, Default)
  }

  /** `s.includes(ws[0]) || s.includes(ws[1]) || s.includes(ws[2])`, written out as the source does. */
  predicate IncludesOneOf(s: string, ws: seq<string>)
    requires |ws| == 3
    ensures IncludesOneOf(s, ws) <==> IncludesAny(s, ws)
  {
    Includes(s, ws[0]) || Includes(s, ws[1]) || Includes(s, ws[2])
  }

  /** The timer's body: `response` starts at the default and the first test that holds replaces it. */
  method Respond(inputValue: string) returns (response: Topic)
    ensures response == Classify(LowerStr(inputValue))
  {
    response := Default;
    var input := LowerStr(inputValue);
    FirstRuleStep(Topics, input, 0);
    FirstRuleStep(Topics, input, 1);
    FirstRuleStep(Topics, input, 2);
    FirstRuleStep(Topics, input, 3);
    FirstRuleStep(Topics, input, 4);
    if IncludesOneOf(input, SkillsWords) {
      response := Skills;
    } else if IncludesOneOf(input, ProjectsWords) {
      response := Projects;
    } else if IncludesOneOf(input, ExperienceWords) {
      response := Experience;
    } else if IncludesOneOf(input, EducationWords) {
      response := Education;
    } else if IncludesOneOf(input, ContactWords) {
      response := Contact;
    }
  }

  /** A topic is chosen exactly when its words occur and no earlier row's words do. */
  lemma ClassifyOrder(input: string, i: nat)
    requires i < |Topics|
    ensures Classify(input) == Topics[i].value <==>
      IncludesAny(input, Topics[i].keys) && forall j :: 0 <= j < i ==> !IncludesAny(input, Topics[j].keys)
  {
    FirstRuleIs(Topics, input, i);
    FirstRuleFinds(Topics, input, 0);
  }

  /** Input that holds "work" and no skills word is about projects, even when it also names a job or an internship. */
  lemma WorkIsProjects(input: string)
    requires Includes(input, "work") && !IncludesAny(input, SkillsWords)
    ensures Classify(input) == Projects
    ensures Classify(input) != Experience
  {
    assert Includes(input, Topics[1].keys[1]);
    ClassifyOrder(input, 1);
  }

  /** No topic word at all gives the default answer. */
  lemma NoWordIsDefault(input: string)
    requires forall i :: 0 <= i < |Topics| ==> !IncludesAny(input, Topics[i].keys)
    ensures Classify(input) == Default
  {
    FirstRuleFinds(Topics, input, 0);
  }

  // ---------------------------------------------------------------------------
  // The widget

  class ChatWidget {
    var messages: seq<Message>
    var inputValue: string
    var pending: seq<Scheduled>

    /** Ids are the positions counted from 1, and a waiting reply takes the next one. */
    predicate Sequential()
      reads this
    {
      && (forall i :: 0 <= i < |messages| ==> messages[i].id == i + 1)
      && |pending| <= 1
      && (pending != [] ==> pending[0].id == |messages| + 1)
    }

    /** The first render: the greeting alone, with id 1, and an empty input. */
    constructor ()
      ensures messages == [Message(1, Welcome)] && inputValue == "" && pending == []
      ensures Sequential()
    {
      messages := [Message(1, Welcome)];
      inputValue := "";
      pending := [];
    }

    /** The input box's `onChange`. */
    method Edit(value: string)
      modifies this
      ensures inputValue == value && messages == old(messages) && pending == old(pending)
    {
      inputValue := value;
    }

    /**
     * `handleSendMessage`: blank input changes nothing; otherwise the visitor's
     * text is appended with id `length + 1`, a reply with id `length + 2` is
     * scheduled for that text, and the input is cleared.
     */
    method Send()
      modifies this
      ensures Blank(old(inputValue)) ==>
        messages == old(messages) && pending == old(pending) && inputValue == old(inputValue)
      ensures !Blank(old(inputValue)) ==>
        && messages == old(messages) + [Message(|old(messages)| + 1, Said(old(inputValue)))]
        && pending == old(pending) + [Scheduled(|old(messages)| + 2, old(inputValue))]
        && inputValue == ""
      ensures old(Sequential()) && old(pending) == [] ==> Sequential()
    {
      if Trim(inputValue) == "" {
        return;
      }
      var n := |messages|;
      messages := messages + [Message(n + 1, Said(inputValue))];
      pending := pending + [Scheduled(n + 2, inputValue)];
      inputValue := "";
    }

    /** The oldest timer fires: its answer is appended with the id fixed when it was scheduled. */
    method Deliver()
      requires pending != []
      modifies this
      ensures messages == old(messages) + [Message(old(pending)[0].id, Answer(Classify(LowerStr(old(pending)[0].input))))]
      ensures pending == old(pending)[1..] && inputValue == old(inputValue)
      ensures old(Sequential()) ==> Sequential() && pending == []
    {
      var response := Respond(pending[0].input);
      messages := messages + [Message(pending[0].id, Answer(response))];
      pending := pending[1..];
    }
  }

  /**
   * A send followed by its reply, with nothing else waiting, adds exactly the
   * visitor's message and the classified answer, with the next two ids, and
   * keeps every earlier message as it was.
   */
  method SendAndReply(w: ChatWidget) returns (added: seq<Message>)
    requires w.Sequential() && w.pending == [] && !Blank(w.inputValue)
    modifies w
    ensures |old(w.messages)| + 2 == |w.messages| && old(w.messages) <= w.messages
    ensures added == w.messages[|old(w.messages)|..]
    ensures added == [Message(|old(w.messages)| + 1, Said(old(w.inputValue))),
                      Message(|old(w.messages)| + 2, Answer(Classify(LowerStr(old(w.inputValue)))))]
    ensures w.Sequential() && w.pending == [] && w.inputValue == ""
  {
    var before := w.messages;
    w.Send();
    w.Deliver();
    added := w.messages[|before|..];
  }

  /**
   * Two sends inside the timer's delay: the second visitor message takes the id
   * already promised to the first reply, because both read the list's length
   * before that reply is added.
   */
  method OverlappingSends(w: ChatWidget, second: string) returns (shared: nat)
    requires w.Sequential() && w.pending == [] && !Blank(w.inputValue) && !Blank(second)
    modifies w
    ensures |w.pending| == 2 && |w.messages| == |old(w.messages)| + 2
    ensures w.messages[|w.messages| - 1] == Message(shared, Said(second))
    ensures w.pending[0].id == shared
  {
    w.Send();
    w.Edit(second);
    w.Send();
    shared := w.pending[0].id;
  }
}
