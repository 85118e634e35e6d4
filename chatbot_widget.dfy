/**
 * The chat panel controller of the help widget: a message log that only
 * grows, an input draft, a pending-reply flag, and a bug-report form with
 * its own draft fields. The two HTTP endpoints (`/api/chat`,
 * `/api/feedback`) are outside the component; what they answer arrives as
 * an outcome parameter.
 */
module ChatbotWidget {
  import opened Wrappers
  import opened JsString

  datatype Role = User | Assistant

  /** One entry of the log; never changed once appended. */
  datatype ChatMsg = ChatMsg(role: Role, content: string)

  const Greeting := "Hi! I can help with feedback, issues, guides, FAQs and leads. How can I help?"
  const DefaultReply := "Thanks for your message!"
  const Apology := "Sorry, I had trouble replying right now. Please try again."
  const ReportThanks := "Thanks! We received your report and will look into it."
  const ReportFailure := "Couldn't submit the report right now. Please try again."
  const PreviewHeader := "Email preview (not delivered yet):\nTo: "
  const SubjectLabel := "\nSubject: "
  const BodyRule := "\n---\n"

  // ---------------------------------------------------------------------
  // The chat endpoint
  // ---------------------------------------------------------------------

  /** Body posted to `/api/chat`; an absent intent is dropped from the JSON. */
  datatype ChatRequest = ChatRequest(message: string, intent: Option<string>)

  /**
   * What awaiting `/api/chat` yields: a parsed body whose `reply` field is
   * present (a string) or absent, or a rejected fetch / unparsable body.
   */
  datatype ChatOutcome = ChatReply(reply: Option<string>) | ChatFailure

  /**
   * `data?.reply || "Thanks for your message!"`: a present, non-empty reply
   * is shown as is; an absent or empty one (both falsy) gives the default.
   */
  function ReplyText(reply: Option<string>): (r: string)
    ensures r != ""
    ensures reply.Some? && reply.value != "" ==> r == reply.value
    ensures reply == Some(r) || (r == DefaultReply && (reply.None? || reply.value == ""))
  {
    match reply
    case Some(text) => if text != "" then text else DefaultReply
    case None => DefaultReply
  }

  /** The one assistant message a finished chat call appends. */
  function AssistantReply(outcome: ChatOutcome): (m: ChatMsg)
    ensures m.role == Assistant && m.content != ""
    ensures outcome.ChatFailure? ==> m.content == Apology
    ensures outcome.ChatReply? && outcome.reply.Some? && outcome.reply.value != "" ==>
              m.content == outcome.reply.value
    ensures outcome.ChatReply? && (outcome.reply.None? || outcome.reply.value == "") ==>
              m.content == DefaultReply
  {
    match outcome
    case ChatReply(reply) => ChatMsg(Assistant, ReplyText(reply))
    case ChatFailure => ChatMsg(Assistant, Apology)
  }

  // ---------------------------------------------------------------------
  // Quick actions
  // ---------------------------------------------------------------------

  /** One quick-action button (its icon is presentation only). */
  datatype QuickAction = QuickAction(title: string, prompt: string, intent: string)

  /** The fixed, ordered table of quick actions. */
  const QuickActions: seq<QuickAction> := [
    QuickAction("Give feedback", "I want to share feedback:", "feedback"),
    QuickAction("Report an issue", "", "issue"),
    QuickAction("How to use NexTrend", "Guide me on how to use the site.", "guide"),
    QuickAction("Contact the owner", "This is urgent. Contact the owner.", "contact"),
    QuickAction("Ask a question", "Here's my question:", "faq"),
    QuickAction("I want to become a lead", "My name is ..., email is ... and I'm interested in ...", "lead")
  ]

  /** What clicking a quick action does. */
  datatype QuickEffect = OpenBugForm | SendPrompt(text: string, intent: string)

  function Dispatch(qa: QuickAction): (e: QuickEffect)
    ensures e.OpenBugForm? <==> qa.intent == "issue"
    ensures e.SendPrompt? ==> e.text == qa.prompt && e.intent == qa.intent
  {
    if qa.intent == "issue" then OpenBugForm else SendPrompt(qa.prompt, qa.intent)
  }

  /**
   * The table has six entries with distinct titles (they are the render
   * keys) and distinct intents, in the order feedback, issue, guide,
   * contact, faq, lead; only the second one opens the bug form.
   */
  lemma QuickActionTable()
    ensures |QuickActions| == 6
    ensures forall i, j :: 0 <= i < j < |QuickActions| ==>
              QuickActions[i].title != QuickActions[j].title &&
              QuickActions[i].intent != QuickActions[j].intent
    ensures forall i :: 0 <= i < |QuickActions| ==>
              (Dispatch(QuickActions[i]).OpenBugForm? <==> i == 1)
    ensures [QuickActions[0].intent, QuickActions[1].intent, QuickActions[2].intent,
             QuickActions[3].intent, QuickActions[4].intent, QuickActions[5].intent]
            == ["feedback", "issue", "guide", "contact", "faq", "lead"]
  {
  }

  /**
   * Every quick action that sends has a non-blank canned prompt, so its
   * `send` always passes the whitespace guard; the "issue" entry's prompt
   * is blank.
   */
  lemma {:induction false} QuickPromptsPassGuard()
    ensures forall i :: 0 <= i < |QuickActions| ==>
              (Dispatch(QuickActions[i]).SendPrompt? <==> !IsBlank(QuickActions[i].prompt))
  {
    forall i | 0 <= i < |QuickActions|
      ensures Dispatch(QuickActions[i]).SendPrompt? <==> !IsBlank(QuickActions[i].prompt)
    {
      var p := QuickActions[i].prompt;
      if i == 1 {
        assert p == "";
      } else {
        assert !IsWhiteSpace(p[|p| - 1]) by {
          assert |QuickActions| == 6;
          if i == 0 || i == 4 { assert p[|p| - 1] == ':'; }
          else { assert p[|p| - 1] == '.'; }
        }
        assert !AllWhiteSpace(p);
      }
    }
  }

  // ---------------------------------------------------------------------
  // The feedback endpoint
  // ---------------------------------------------------------------------

  datatype Preview = Preview(to: string, subject: string, text: string)

  /** Body posted to `/api/feedback`. */
  datatype FeedbackRequest = FeedbackRequest(
    name: string, email: string, description: string, kind: string, severity: Severity)

  /**
   * What awaiting `/api/feedback` yields: a parsed body (`ok` read for its
   * truthiness, `delivered` and `preview` possibly absent) or a rejected
   * fetch / unparsable body.
   */
  datatype FeedbackOutcome =
    | FeedbackResponse(ok: bool, delivered: Option<bool>, preview: Option<Preview>)
    | FeedbackFailure

  /** The report's severity, sent as the JSON string "urgent" or "normal". */
  datatype Severity = Normal | Urgent

  function SeverityName(s: Severity): (name: string)
    ensures name == "urgent" <==> s == Urgent
    ensures name == "normal" <==> s == Normal
  {
    match s
    case Urgent => "urgent"
    case Normal => "normal"
  }

  /** The report as posted: fields as typed (untrimmed), type "issue". */
  function ReportRequest(name: string, email: string, description: string, urgent: bool): (req: FeedbackRequest)
    ensures req.name == name && req.email == email && req.description == description
    ensures req.kind == "issue"
    ensures req.severity == Urgent <==> urgent
    ensures SeverityName(req.severity) == if urgent then "urgent" else "normal"
  {
    FeedbackRequest(name, email, description, "issue", if urgent then Urgent else Normal)
  }

  /** The submit button is enabled only when no required field is blank. */
  predicate CanSubmitReport(name: string, email: string, description: string)
    ensures CanSubmitReport(name, email, description) <==>
              !AllWhiteSpace(name) && !AllWhiteSpace(email) && !AllWhiteSpace(description)
  {
    !IsBlank(name) && !IsBlank(email) && !IsBlank(description)
  }

  /** Submitting is possible exactly when each required field shows a visible character. */
  lemma CanSubmitReportIff(name: string, email: string, description: string)
    ensures CanSubmitReport(name, email, description) <==>
              HasVisibleChar(name) && HasVisibleChar(email) && HasVisibleChar(description)
  {
  }

  /**
   * The server answered that it did not send the e-mail and showed what it
   * would have sent. `delivered` must be literally false: an absent or true
   * `delivered` never shows a preview.
   */
  predicate ShowsPreview(outcome: FeedbackOutcome)
    ensures ShowsPreview(outcome) ==> outcome.FeedbackResponse? && outcome.ok && outcome.preview.Some?
    ensures outcome.FeedbackResponse? && outcome.delivered != Some(false) ==> !ShowsPreview(outcome)
  {
    outcome.FeedbackResponse? && outcome.ok && outcome.delivered == Some(false) &&
    outcome.preview.Some?
  }

  /** The text of the e-mail preview message. */
  function PreviewText(p: Preview): (r: string)
    ensures |r| == |PreviewHeader| + |p.to| + |SubjectLabel| + |p.subject| + |BodyRule| + |p.text|
    ensures r[..|PreviewHeader|] == PreviewHeader
    ensures r[|PreviewHeader|..|PreviewHeader| + |p.to|] == p.to
    ensures r[|PreviewHeader| + |p.to| + |SubjectLabel|..|PreviewHeader| + |p.to| + |SubjectLabel| + |p.subject|] == p.subject
    ensures r[|PreviewHeader| + |p.to|..|PreviewHeader| + |p.to| + |SubjectLabel|] == SubjectLabel
    ensures r[|r| - |p.text| - |BodyRule|..|r| - |p.text|] == BodyRule
    ensures r[|r| - |p.text|..] == p.text
  {
    PreviewHeader + p.to + SubjectLabel + p.subject + BodyRule + p.text
  }

  /** The assistant messages one finished report submission appends. */
  function ReportMessages(outcome: FeedbackOutcome): (ms: seq<ChatMsg>)
    ensures 1 <= |ms| <= 2
    ensures forall k :: 0 <= k < |ms| ==> ms[k].role == Assistant && ms[k].content != ""
    ensures ms[0].content == if outcome.FeedbackFailure? then ReportFailure else ReportThanks
    ensures |ms| == 2 <==> ShowsPreview(outcome)
    ensures |ms| == 2 ==> ms[1].content == PreviewText(outcome.preview.value)
  {
    match outcome
    case FeedbackFailure => [ChatMsg(Assistant, ReportFailure)]
    case FeedbackResponse(ok, delivered, preview) =>
      var base := [ChatMsg(Assistant, ReportThanks)];
      if ok && delivered == Some(false) && preview.Some? then
        base + [ChatMsg(Assistant, PreviewText(preview.value))]
      else base
  }

  // ---------------------------------------------------------------------
  // The message log
  // ---------------------------------------------------------------------

  /**
   * What every reachable log satisfies: it starts with the greeting, user
   * messages are never blank, assistant messages are never empty, and
   * while `loading` is false the assistant has the last word. (`loading`
   * is one flag: after two sends and one reply it is already false while
   * the second reply is still outstanding.)
   */
  predicate GoodLog(log: seq<ChatMsg>, loading: bool)
  {
    |log| >= 1 && log[0] == ChatMsg(Assistant, Greeting) &&
    (forall k :: 0 <= k < |log| ==>
       (log[k].role == User ==> !AllWhiteSpace(log[k].content)) &&
       (log[k].role == Assistant ==> log[k].content != "")) &&
    (!loading ==> log[|log| - 1].role == Assistant)
  }

  /** Appending assistant messages keeps a good log good, and lets it rest. */
  lemma AppendAssistant(log: seq<ChatMsg>, loading: bool, ms: seq<ChatMsg>, loading': bool)
    requires GoodLog(log, loading)
    requires |ms| >= 1 && forall k :: 0 <= k < |ms| ==> ms[k].role == Assistant && ms[k].content != ""
    ensures GoodLog(log + ms, loading')
  {
  }

  /** Appending a non-blank user message keeps a good log good while a reply is pending. */
  lemma AppendUser(log: seq<ChatMsg>, loading: bool, text: string)
    requires GoodLog(log, loading)
    requires !IsBlank(text)
    ensures GoodLog(log + [ChatMsg(User, text)], true)
  {
  }

  // ---------------------------------------------------------------------
  // The component state and its handlers
  // ---------------------------------------------------------------------

  class Widget {
    var open: bool
    var input: string
    var messages: seq<ChatMsg>
    var loading: bool
    var showBugForm: bool
    var bugName: string
    var bugEmail: string
    var bugDesc: string
    var bugUrgent: bool

    ghost predicate Valid()
      reads this
    {
      GoodLog(messages, loading)
    }

    /** The state on mount: one greeting, panel closed, nothing pending, empty drafts. */
    constructor ()
      ensures Valid()
      ensures messages == [ChatMsg(Assistant, Greeting)]
      ensures !open && input == "" && !loading && !showBugForm
      ensures bugName == "" && bugEmail == "" && bugDesc == "" && !bugUrgent
    {
      open := false;
      input := "";
      messages := [ChatMsg(Assistant, Greeting)];
      loading := false;
      showBugForm := false;
      bugName := "";
      bugEmail := "";
      bugDesc := "";
      bugUrgent := false;
    }

    /**
     * The chat send button's enabling condition. The button lives in the
     * dialog, so it can only be pressed while the dialog is open.
     */
    predicate SendEnabled()
      reads this
      ensures SendEnabled() ==> open && !loading && !showBugForm && !AllWhiteSpace(input)
    {
      open && !loading && !IsBlank(input) && !showBugForm
    }

    /** The dialog opens or closes; nothing else changes. */
    method SetOpen(value: bool)
      requires Valid()
      modifies this`open
      ensures Valid() && open == value
    {
      open := value;
    }

    /**
     * Typing into the chat input; the input exists only while the dialog is
     * open and is disabled while the bug form is shown.
     */
    method EditInput(value: string)
      requires Valid()
      modifies this`input
      ensures Valid()
      ensures input == if open && !old(showBugForm) then value else old(input)
    {
      if open && !showBugForm {
        input := value;
      }
    }

    /** Typing into the bug form's name field, which exists only while the form is shown in the open dialog. */
    method EditBugName(value: string)
      requires Valid()
      modifies this`bugName
      ensures Valid()
      ensures bugName == if open && showBugForm then value else old(bugName)
    {
      if open && showBugForm {
        bugName := value;
      }
    }

    /** Typing into the bug form's email field, which exists only while the form is shown in the open dialog. */
    method EditBugEmail(value: string)
      requires Valid()
      modifies this`bugEmail
      ensures Valid()
      ensures bugEmail == if open && showBugForm then value else old(bugEmail)
    {
      if open && showBugForm {
        bugEmail := value;
      }
    }

    /** Typing into the bug form's description, which exists only while the form is shown in the open dialog. */
    method EditBugDesc(value: string)
      requires Valid()
      modifies this`bugDesc
      ensures Valid()
      ensures bugDesc == if open && showBugForm then value else old(bugDesc)
    {
      if open && showBugForm {
        bugDesc := value;
      }
    }

    /** Flipping the urgent switch, which exists only while the form is shown in the open dialog. */
    method SetBugUrgent(value: bool)
      requires Valid()
      modifies this`bugUrgent
      ensures Valid()
      ensures bugUrgent == if open && showBugForm then value else old(bugUrgent)
    {
      if open && showBugForm {
        bugUrgent := value;
      }
    }

    /**
     * The synchronous part of `send`: a blank text changes nothing and
     * posts nothing; otherwise the user message is appended, the draft
     * cleared, the panel marked pending and the request posted.
     */
    method BeginSend(text: string, intent: Option<string>) returns (req: Option<ChatRequest>)
      requires Valid()
      modifies this`messages, this`input, this`loading
      ensures Valid()
      ensures req.None? <==> IsBlank(text)
      ensures req.None? ==> messages == old(messages) && input == old(input) && loading == old(loading)
      ensures req.Some? ==> req.value == ChatRequest(text, intent) &&
                            messages == old(messages) + [ChatMsg(User, text)] &&
                            input == "" && loading
    {
      if IsBlank(text) {
        return None;
      }
      AppendUser(messages, loading, text);
      messages := messages + [ChatMsg(User, text)];
      input := "";
      loading := true;
      req := Some(ChatRequest(text, intent));
    }

    /**
     * The part of `send` after the await: exactly one assistant message is
     * appended and `loading` is cleared, whatever the outcome. A reply may
     * arrive after the dialog was closed, so this step is not gated.
     */
    method CompleteSend(outcome: ChatOutcome)
      requires Valid()
      modifies this`messages, this`loading
      ensures Valid()
      ensures messages == old(messages) + [AssistantReply(outcome)]
      ensures !loading
    {
      AppendAssistant(messages, loading, [AssistantReply(outcome)], false);
      messages := messages + [AssistantReply(outcome)];
      loading := false;
    }

    /** `send` run to completion with no other handler in between. */
    method Send(text: string, intent: Option<string>, outcome: ChatOutcome) returns (req: Option<ChatRequest>)
      requires Valid()
      modifies this`messages, this`input, this`loading
      ensures Valid()
      ensures req.None? <==> IsBlank(text)
      ensures req.None? ==> messages == old(messages) && input == old(input) && loading == old(loading)
      ensures req.Some? ==> req.value == ChatRequest(text, intent) && input == "" && !loading &&
                            messages == old(messages) + [ChatMsg(User, text), AssistantReply(outcome)]
    {
      req := BeginSend(text, intent);
      if req.Some? {
        CompleteSend(outcome);
      }
    }

    /**
     * Clicking quick action `i` in the open dialog: "issue" opens the bug
     * form and posts nothing; the others start `send` with their prompt and
     * intent. The buttons exist only while the dialog is open.
     */
    method RunQuickAction(i: nat) returns (req: Option<ChatRequest>)
      requires Valid()
      requires i < |QuickActions|
      modifies this`messages, this`input, this`loading, this`showBugForm
      ensures Valid()
      ensures !open ==> req.None? && messages == old(messages) && input == old(input) &&
                        loading == old(loading) && showBugForm == old(showBugForm)
      ensures open && Dispatch(QuickActions[i]).OpenBugForm? ==>
                showBugForm && req.None? && messages == old(messages) &&
                input == old(input) && loading == old(loading)
      ensures open && Dispatch(QuickActions[i]).SendPrompt? ==>
                showBugForm == old(showBugForm) && loading && input == "" &&
                req == Some(ChatRequest(QuickActions[i].prompt, Some(QuickActions[i].intent))) &&
                messages == old(messages) + [ChatMsg(User, QuickActions[i].prompt)]
    {
      if !open {
        return None;
      }
      QuickPromptsPassGuard();
      match Dispatch(QuickActions[i])
      case OpenBugForm =>
        showBugForm := true;
        req := None;
      case SendPrompt(text, intent) =>
        req := BeginSend(text, Some(intent));
    }

    /** Cancel hides the bug form; the draft fields keep their values. The button exists only in the open dialog. */
    method CancelBugForm()
      requires Valid()
      modifies this`showBugForm
      ensures Valid()
      ensures showBugForm == if open then false else old(showBugForm)
    {
      if open {
        showBugForm := false;
      }
    }

    /**
     * The feedback call has settled: a failed call appends the failure
     * message and leaves the form as it was; an answered call closes and
     * clears the form and appends the thank-you message, plus the e-mail
     * preview when the server reports it undelivered.
     */
    method ApplyReportOutcome(outcome: FeedbackOutcome)
      requires Valid()
      modifies this`messages, this`showBugForm, this`bugName, this`bugEmail, this`bugDesc, this`bugUrgent
      ensures Valid()
      ensures messages == old(messages) + ReportMessages(outcome)
      ensures outcome.FeedbackFailure? ==>
                showBugForm == old(showBugForm) && bugName == old(bugName) && bugEmail == old(bugEmail) &&
                bugDesc == old(bugDesc) && bugUrgent == old(bugUrgent)
      ensures outcome.FeedbackResponse? ==>
                !showBugForm && bugName == "" && bugEmail == "" && bugDesc == "" && !bugUrgent
    {
      var appended := ReportMessages(outcome);
      AppendAssistant(messages, loading, appended, loading);
      messages := messages + appended;
      if outcome.FeedbackResponse? {
        showBugForm, bugName, bugEmail, bugDesc, bugUrgent := false, "", "", "", false;
      }
    }

    /**
     * Clicking "Submit report" and awaiting the feedback call. The button
     * exists only while the form is shown in the open dialog and is
     * disabled while a required field is blank; then nothing happens.
     * Otherwise the report as typed is posted and its outcome applied.
     */
    method SubmitReport(outcome: FeedbackOutcome) returns (req: Option<FeedbackRequest>)
      requires Valid()
      modifies this`messages, this`showBugForm, this`bugName, this`bugEmail, this`bugDesc, this`bugUrgent
      ensures Valid()
      ensures req.Some? <==> open && old(showBugForm) && CanSubmitReport(old(bugName), old(bugEmail), old(bugDesc))
      ensures req.Some? ==> req.value == ReportRequest(old(bugName), old(bugEmail), old(bugDesc), old(bugUrgent))
      ensures req.None? || outcome.FeedbackFailure? ==>
                showBugForm == old(showBugForm) && bugName == old(bugName) && bugEmail == old(bugEmail) &&
                bugDesc == old(bugDesc) && bugUrgent == old(bugUrgent)
      ensures req.None? ==> messages == old(messages)
      ensures req.Some? ==> messages == old(messages) + ReportMessages(outcome)
      ensures req.Some? && outcome.FeedbackResponse? ==>
                !showBugForm && bugName == "" && bugEmail == "" && bugDesc == "" && !bugUrgent
    {
      if !open || !showBugForm || !CanSubmitReport(bugName, bugEmail, bugDesc) {
        return None;
      }
      req := Some(ReportRequest(bugName, bugEmail, bugDesc, bugUrgent));
      ApplyReportOutcome(outcome);
    }

    /**
     * Submitting the chat form: ignored while the bug form is shown (and
     * impossible while the dialog is closed), otherwise `send` of the
     * current draft without an intent. When the send button is enabled the
     * user message is always appended.
     */
    method SubmitChatForm() returns (req: Option<ChatRequest>)
      requires Valid()
      modifies this`messages, this`input, this`loading
      ensures Valid()
      ensures !open || old(showBugForm) ==> req.None? && messages == old(messages) &&
                                            input == old(input) && loading == old(loading)
      ensures open && !old(showBugForm) ==> (req.None? <==> IsBlank(old(input)))
      ensures req.None? ==> messages == old(messages) && input == old(input) && loading == old(loading)
      ensures req.Some? ==> req.value == ChatRequest(old(input), None) && input == "" && loading &&
                            messages == old(messages) + [ChatMsg(User, old(input))]
      ensures old(SendEnabled()) ==> req.Some?
    {
      if !open || showBugForm {
        return None;
      }
      req := BeginSend(input, None);
    }
  }
}
