# NexTrend help widget and navigation bar, modelled in Dafny

This project models the client-side state logic of two UI components of the
NexTrend site:

- **The chat panel controller** (`components/chatbot-widget.tsx`). It keeps a
  message log that only grows and starts with one assistant greeting. It also
  keeps the input draft, the `loading` flag, the `showBugForm` flag, and the
  four bug-report draft fields. Its handlers are `send`, the six quick
  actions, cancel, submit of the bug report, and submit of the chat form.
  The model is the class `ChatbotWidget.Widget`, with one method per handler.
  `send` is split at its `await`. `BeginSend` appends the user message and
  marks the panel pending. `CompleteSend` appends exactly one assistant
  message and clears the flag. `Send` runs both with nothing in between.
- **The navigation bar** (`components/navbar.tsx`). Pure functions of the
  optional route decide three things: whether the route is in the workspace,
  which four-entry link table is shown, and whether the Login / Sign Up
  entries appear. The class `Navbar.Navbar` holds the mobile menu's `isOpen`
  toggle.

The two HTTP endpoints are outside the component. What awaiting them yields
is an outcome parameter:

- `ChatReply(reply)` or `ChatFailure` for `/api/chat`.
- `FeedbackResponse(ok, delivered, preview)` or `FeedbackFailure` for
  `/api/feedback`.

A rejected fetch and a body that does not parse are both failures.

JavaScript's `trim` and `startsWith` are modelled exactly in module
`JsString`. `trim` removes the ECMAScript WhiteSpace and LineTerminator code
points from both ends. The blank-text guards of `send` and of the bug-report
button are defined through it.

A disabled or hidden control cannot be clicked or typed into, so its handler
is modelled as a no-op in that state rather than as a precondition:

- The report button is disabled while a required field is blank.
- The chat input is disabled while the bug form is shown.
- The bug-form fields exist only while the form is shown.
- The mobile links exist only while the menu is open.
- The quick actions, the chat input and send button, and the whole bug form
  live inside the dialog, so they exist only while the dialog is `open`. A
  chat reply can still arrive after the dialog is closed, so `CompleteSend`
  is not gated.

The class `Widget` keeps the invariant `GoodLog` across every handler:

- the log starts with the greeting;
- no user message is blank;
- no assistant message is empty;
- while `loading` is false, the last message is the assistant's.

`loading` is a single flag, not a count of outstanding replies. After two
sends and one reply it is already false, although the second reply is still
to come.

Two behaviours of the widget are easy to overlook, and the model keeps them:

- Cancel (line 192) only hides the bug form. The draft fields keep their
  values and come back when the form is reopened.
- The chat input is disabled only while the bug form is shown (line 254).
  While a reply is pending, only the send button is disabled (line 257), so
  `EditInput` is allowed then.

## Model

| member | source | states |
|---|---|---|
| `JsString.TrimStartDropsPrefix` | components/chatbot-widget.tsx:36 | trimming the start removes exactly a white-space prefix and stops at a visible character |
| `JsString.TrimEndDropsSuffix` | components/chatbot-widget.tsx:36 | trimming the end removes exactly a white-space suffix and stops at a visible character |
| `JsString.TrimIsSlice` | components/chatbot-widget.tsx:36 | `trim()` returns a slice of its input with only white space outside it, neither starting nor ending with white space |
| `JsString.Trim` | components/chatbot-widget.tsx:36 | `text.trim()` is no longer than the text and neither starts nor ends with white space |
| `JsString.IsBlank` | components/chatbot-widget.tsx:36 | `!text.trim()` (the trimmed text is the falsy empty string) holds exactly when every character of the text is white space |
| `JsString.TrimEmptyIffAllWhiteSpace` | components/chatbot-widget.tsx:36 | trimming leaves the empty string exactly when every character of the text is white space, the empty text included |
| `JsString.NotBlankIffVisible` | components/chatbot-widget.tsx:198 | a string passes the trim guard exactly when it contains a visible character |
| `JsString.StartsWith` | components/navbar.tsx:17 | `startsWith` holds exactly when the prefix fits and equals the string's first characters |
| `ChatbotWidget.ReplyText` | components/chatbot-widget.tsx:48 | the shown reply is never empty; a present non-empty reply is shown as is, otherwise the default text |
| `ChatbotWidget.AssistantReply` | components/chatbot-widget.tsx:47-54 | a finished chat call yields one non-empty assistant message: the reply, the default text for an absent or empty reply, or the apology on failure |
| `ChatbotWidget.Dispatch` | components/chatbot-widget.tsx:110-116 | a quick action opens the bug form exactly when its intent is "issue"; any other sends its own prompt with its own intent |
| `ChatbotWidget.QuickActionTable` | components/chatbot-widget.tsx:61-68 | six actions with distinct titles (the render keys) and distinct intents, in the order feedback, issue, guide, contact, faq, lead; only the second opens the bug form |
| `ChatbotWidget.QuickPromptsPassGuard` | components/chatbot-widget.tsx:61-68 | an action sends exactly when its canned prompt is non-blank, so every sending action gets past the whitespace guard |
| `ChatbotWidget.SeverityName` | components/chatbot-widget.tsx:204 | severity is sent as "urgent" exactly when urgent, and as "normal" otherwise |
| `ChatbotWidget.ReportRequest` | components/chatbot-widget.tsx:204 | the posted report carries the fields as typed, type "issue", and the severity whose JSON string is "urgent" exactly when the switch is on and "normal" otherwise |
| `ChatbotWidget.CanSubmitReport` | components/chatbot-widget.tsx:198 | the report button's enabling condition (the negation of its `disabled` expression) holds exactly when none of the three fields is all white space |
| `ChatbotWidget.ShowsPreview` | components/chatbot-widget.tsx:217 | the condition `data && data.ok && data.delivered === false && data.preview` holds only for an answered call with `ok` and a preview to render, and never when `delivered` is absent or true |
| `ChatbotWidget.CanSubmitReportIff` | components/chatbot-widget.tsx:198 | the submit button is enabled exactly when name, email and description each contain a visible character |
| `ChatbotWidget.PreviewText` | components/chatbot-widget.tsx:220 | the preview message is the "Email preview (not delivered yet)" header, then the recipient, then "\nSubject: " and the subject, then the "\n---\n" rule and the mail text at the end; each field sits at its fixed offset |
| `ChatbotWidget.ReportMessages` | components/chatbot-widget.tsx:212-229 | a finished submit yields one or two non-empty assistant messages: the failure text on failure, else the thanks, plus the preview exactly when ok holds, delivered is false and a preview is present |
| `ChatbotWidget.AppendAssistant` | components/chatbot-widget.tsx:49-53 | appending non-empty assistant messages keeps the log invariant and leaves the assistant with the last word |
| `ChatbotWidget.AppendUser` | components/chatbot-widget.tsx:36-40 | appending a non-blank user message while marking the panel pending keeps the log invariant |
| `ChatbotWidget.Widget.constructor` | components/chatbot-widget.tsx:16-26 | the log holds only the greeting, the panel is closed, nothing is pending, the form is hidden and every draft is empty or off |
| `ChatbotWidget.Widget.SetOpen` | components/chatbot-widget.tsx:72 | opening or closing the dialog sets `open` and changes nothing else |
| `ChatbotWidget.Widget.SendEnabled` | components/chatbot-widget.tsx:257 | the send button can be pressed only in the open dialog, with nothing loading, the bug form hidden and a draft that is not all white space |
| `ChatbotWidget.Widget.EditInput` | components/chatbot-widget.tsx:250-256 | typing replaces the draft only in the open dialog and not while the bug form is shown, when the input is disabled |
| `ChatbotWidget.Widget.EditBugName` | components/chatbot-widget.tsx:165-170 | typing replaces the name only while the form is shown in the open dialog |
| `ChatbotWidget.Widget.EditBugEmail` | components/chatbot-widget.tsx:171-177 | typing replaces the email only while the form is shown in the open dialog |
| `ChatbotWidget.Widget.EditBugDesc` | components/chatbot-widget.tsx:178-183 | typing replaces the description only while the form is shown in the open dialog |
| `ChatbotWidget.Widget.SetBugUrgent` | components/chatbot-widget.tsx:186 | the switch sets the urgent flag only while the form is shown in the open dialog |
| `ChatbotWidget.Widget.BeginSend` | components/chatbot-widget.tsx:36-40 | blank text changes nothing and posts nothing; otherwise exactly the user message is appended, the draft is cleared, the panel is pending and `{message, intent}` is posted |
| `ChatbotWidget.Widget.CompleteSend` | components/chatbot-widget.tsx:47-56 | exactly one assistant message, the reply, default or apology, is appended, and `loading` is false whatever the outcome |
| `ChatbotWidget.Widget.Send` | components/chatbot-widget.tsx:35-59 | for non-blank text, a whole send grows the log by the user message and one assistant reply and ends with `loading` false; blank text leaves the log, the draft and `loading` unchanged |
| `ChatbotWidget.Widget.RunQuickAction` | components/chatbot-widget.tsx:110-116 | a closed dialog has no buttons, so nothing changes. In the open dialog, "issue" shows the form and appends nothing; every other action appends its prompt as a user message and posts it with its intent |
| `ChatbotWidget.Widget.CancelBugForm` | components/chatbot-widget.tsx:192 | cancel, in the open dialog, hides the form and keeps the log and the draft fields |
| `ChatbotWidget.Widget.ApplyReportOutcome` | components/chatbot-widget.tsx:206-229 | the log grows by exactly `ReportMessages(outcome)`. An answered call closes the form, clears the three fields and resets urgent. A failed call leaves the form as it was |
| `ChatbotWidget.Widget.SubmitReport` | components/chatbot-widget.tsx:198-231 | nothing happens unless the form is shown in the open dialog and is complete. Otherwise the typed report is posted and the log grows by `ReportMessages`. An answered call closes the form, clears the three fields and resets urgent. A failed call leaves the form as it was |
| `ChatbotWidget.Widget.SubmitChatForm` | components/chatbot-widget.tsx:244-248 | ignored while the bug form is shown or the dialog is closed, and a blank draft changes nothing; otherwise sends the draft without an intent. Whenever the send button is enabled, the draft is appended as a user message |
| `Navbar.IsWorkspace` | components/navbar.tsx:17 | true exactly when a route is present and begins with "/home-dashboard"; an absent route gives false |
| `Navbar.Links` | components/navbar.tsx:19-33 | four links with distinct hrefs: the workspace table (Discover, Keywords, AI Trend, Upgrade) inside the workspace, otherwise the default table (Home, About, Docs, Contact) |
| `Navbar.LinkTables` | components/navbar.tsx:19-31 | each table has four entries whose hrefs, the render keys, are pairwise distinct, and the two tables share no href |
| `Navbar.WorkspaceLinksLeaveWorkspace` | components/navbar.tsx:17-24 | no workspace link target is itself a workspace route |
| `Navbar.Render` | components/navbar.tsx:48-124 | the desktop auth entries are exactly Login (`/login`) and Sign Up (`/auth/signup`) outside the workspace and none inside it; the mobile ones equal them while the menu is open and are absent otherwise, so they never appear beside the workspace links. The mobile list exists exactly while the menu is open and repeats the desktop links. The close icon shows exactly while the menu is open |
| `Navbar.Navbar.constructor` | components/navbar.tsx:10 | the mobile menu starts closed |
| `Navbar.Navbar.ToggleMenu` | components/navbar.tsx:12-14 | the menu button negates `isOpen` |
| `Navbar.Navbar.FollowMobileLink` | components/navbar.tsx:92-100 | following a mobile link of an open menu yields its href and closes the menu; a closed menu has no link to follow |
| `Navbar.ToggleTwice` | components/navbar.tsx:12-14 | toggling the menu twice restores its state |

## Left out

- The HTTP requests, headers and JSON parsing of `/api/chat` and
  `/api/feedback` belong to external services. Their results are the
  outcome parameters. JSON values of unexpected types are not modelled: a
  numeric `reply`, or `preview` fields that are not strings. A `null` body
  from `/api/feedback` behaves like `FeedbackResponse(false, None, None)`.
- The analytics `console.log` after each send (line 57) is a diagnostic side
  effect with no state.
- The auto-scroll effect (lines 29-33) is DOM behaviour.
- Rendering, CSS classes, animation, icons, the "Thinking…" indicator, the
  input placeholder and the theme toggle are presentation.
- Concurrency is not modelled. `BeginSend` and `CompleteSend` are separate
  steps, so interleaved sends can be written down. But `SubmitReport` is one
  atomic step: in the source, the handler posts the field values captured at
  click time, and edits made during the await are not modelled.
- The browser's implicit form submission is left out. Enter in the input
  does nothing while the submit button is disabled. `SubmitChatForm` models
  the `onSubmit` handler as written, which checks only `showBugForm`.
- Navigation performed by the desktop links and by the auth buttons is done
  by the router, outside the component.
- The greeting nudge timers are not part of this version of the widget.
- `app/login/page.tsx` is not part of this model. It is a redirect with no
  logic.
- Strings are sequences of code points, while JavaScript strings are UTF-16.
  All characters `trim` removes are in the Basic Multilingual Plane, and no
  string length is observed, so the two agree here.
