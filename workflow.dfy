/**
 * The state of the `App` component (src/App.jsx:6-13) as a value, and each
 * event handler as a transition from one state to the next. Every handler
 * is taken together with the backend's answer as one atomic step: the
 * answer is an input of the transition, the request the handler would send
 * is an output (an Effect), and so is the `alert` it raises (a Notice).
 */
module Workflow {
  import opened Recipients

  datatype Option<T> = None | Some(value: T)

  /** The browser's File object, opaque: a display name and an identity. */
  datatype SelectedFile = SelectedFile(name: string, handle: nat)

  datatype AppState = AppState(
    file: Option<SelectedFile>,
    summary: string,
    loading: bool,
    customPrompt: string,
    editedSummary: string,
    emailRecipients: string,
    showEmailDialog: bool,
    emailSending: bool)

  /** What `POST /upload` answered: `{success: true, summary}`,
      `{success: false, error}`, or no usable answer at all. */
  datatype UploadOutcome = UploadOk(summary: string) | UploadFail(error: string) | UploadTransportFail

  /** What `POST /send-email` answered. */
  datatype SendOutcome = SendOk | SendFail(error: string) | SendTransportFail

  /** The request a handler sends, if any. */
  datatype Effect =
    | NoRequest
    | UploadRequest(meetingNotes: SelectedFile, customPrompt: string)
    | SendRequest(recipients: seq<string>, subject: string, body: string)

  /** The `alert` a handler raises, if any. */
  datatype Notice =
    | Silent
    | SelectFileFirst
    | UploadError(error: string)
    | ServerUnreachable
    | ComingSoon(platform: string)
    | NeedRecipient
    | NoSummaryToSend
    | SentTo(count: nat)
    | SendError(error: string)
    | SendUnreachable

  datatype Transition = Transition(state: AppState, effect: Effect, notice: Notice)

  const EmailSubject: string := "Meeting Summary"
  const EmailPlatform: string := "Email"

  /** The event a user (or the backend's answer) delivers to the component. */
  datatype Event =
    | ChooseFile(chosen: Option<SelectedFile>)
    | TypePrompt(prompt: string)
    | Summarize(upload: UploadOutcome)
    | TypeSummary(text: string)
    | Share(platform: string)
    | TypeRecipients(recipients: string)
    | CancelDialog
    | SendEmail(send: SendOutcome)

  /** The values `useState` starts with. */
  function Initial(): (s: AppState)
    ensures s.file.None? && s.summary == "" && s.editedSummary == ""
    ensures !s.loading && !s.showEmailDialog && !s.emailSending
    ensures s.customPrompt == "" && s.emailRecipients == ""
  {
    AppState(None, "", false, "", "", "", false, false)
  }

  // Groups of fields that a transition leaves alone.

  predicate SameForm(s: AppState, t: AppState) {
    t.file == s.file && t.customPrompt == s.customPrompt
  }

  predicate SameSummaries(s: AppState, t: AppState) {
    t.summary == s.summary && t.editedSummary == s.editedSummary
  }

  predicate SameDialog(s: AppState, t: AppState) {
    t.emailRecipients == s.emailRecipients && t.showEmailDialog == s.showEmailDialog
      && t.emailSending == s.emailSending
  }

  /** The two guards of the send handler, in terms of what the fields mean:
      some recipient text that is not white space, and a summary that is
      not white space either. */
  predicate CanSend(s: AppState) {
    !AllWs(s.emailRecipients) && !AllWs(s.editedSummary)
  }

  /** handleSummarize (src/App.jsx:16-47). */
  function SummarizeStep(s: AppState, outcome: UploadOutcome): (t: Transition)
    // no file: rejected, with no request and nothing changed
    ensures s.file.None? ==> t == Transition(s, NoRequest, SelectFileFirst)
    // a file: the file and the prompt are sent verbatim, and loading ends
    ensures s.file.Some? ==> t.effect == UploadRequest(s.file.value, s.customPrompt) && !t.state.loading
    ensures s.file.Some? && outcome.UploadOk? ==>
      t.state.summary == outcome.summary && t.state.editedSummary == outcome.summary && t.notice == Silent
    ensures !outcome.UploadOk? ==> SameSummaries(s, t.state)
    ensures s.file.Some? && outcome.UploadFail? ==> t.notice == UploadError(outcome.error)
    ensures s.file.Some? && outcome.UploadTransportFail? ==> t.notice == ServerUnreachable
    ensures SameForm(s, t.state) && SameDialog(s, t.state)
  {
    match s.file
    case None => Transition(s, NoRequest, SelectFileFirst)
    case Some(f) =>
      var request := UploadRequest(f, s.customPrompt);
      var busy := s.(loading := true);
      match outcome
      case UploadOk(text) =>
        Transition(busy.(summary := text, editedSummary := text, loading := false), request, Silent)
      case UploadFail(error) =>
        Transition(busy.(loading := false), request, UploadError(error))
      case UploadTransportFail =>
        Transition(busy.(loading := false), request, ServerUnreachable)
  }

  /** handleFileChange (src/App.jsx:49-53); `chosen` is None when the picker
      is dismissed and `files[0]` is undefined. */
  function ChooseFileStep(s: AppState, chosen: Option<SelectedFile>): (t: AppState)
    ensures t.file == chosen && t.summary == "" && t.editedSummary == ""
    ensures t.customPrompt == s.customPrompt && t.loading == s.loading && SameDialog(s, t)
  {
    s.(file := chosen, summary := "", editedSummary := "")
  }

  /** handleShare (src/App.jsx:55-61): only the email channel does anything. */
  function ShareStep(s: AppState, platform: string): (t: Transition)
    ensures t.effect == NoRequest
    ensures platform == EmailPlatform ==> t.state == s.(showEmailDialog := true) && t.notice == Silent
    ensures platform != EmailPlatform ==> t.state == s && t.notice == ComingSoon(platform)
  {
    if platform == EmailPlatform then Transition(s.(showEmailDialog := true), NoRequest, Silent)
    else Transition(s, NoRequest, ComingSoon(platform))
  }

  /** handleSendEmail (src/App.jsx:63-105). */
  function SendStep(s: AppState, outcome: SendOutcome): (t: Transition)
    // blank recipients are refused first, then a blank summary; neither sends
    ensures AllWs(s.emailRecipients) ==> t == Transition(s, NoRequest, NeedRecipient)
    ensures !AllWs(s.emailRecipients) && AllWs(s.editedSummary) ==>
      t == Transition(s, NoRequest, NoSummaryToSend)
    ensures t.effect.SendRequest? <==> CanSend(s)
    // a valid send carries the parsed recipients, the fixed subject and the edited text
    ensures CanSend(s) ==>
      t.effect == SendRequest(ParseRecipients(s.emailRecipients), EmailSubject, s.editedSummary)
      && !t.state.emailSending
    ensures CanSend(s) && outcome.SendOk? ==>
      !t.state.showEmailDialog && t.state.emailRecipients == ""
      && t.notice == SentTo(|t.effect.recipients|)
    // one recipient per comma-separated piece, none dropped
    ensures t.effect.SendRequest? ==> |t.effect.recipients| == CommaCount(s.emailRecipients) + 1
    ensures !outcome.SendOk? ==>
      t.state.showEmailDialog == s.showEmailDialog && t.state.emailRecipients == s.emailRecipients
    ensures CanSend(s) && outcome.SendFail? ==> t.notice == SendError(outcome.error)
    ensures CanSend(s) && outcome.SendTransportFail? ==> t.notice == SendUnreachable
    ensures SameForm(s, t.state) && SameSummaries(s, t.state) && t.state.loading == s.loading
  {
    if Trim(s.emailRecipients) == "" then Transition(s, NoRequest, NeedRecipient)
    else if Trim(s.editedSummary) == "" then Transition(s, NoRequest, NoSummaryToSend)
    else
      var busy := s.(emailSending := true);
      var recipients := ParseRecipients(s.emailRecipients);
      var request := SendRequest(recipients, EmailSubject, s.editedSummary);
      match outcome
      case SendOk =>
        Transition(busy.(showEmailDialog := false, emailRecipients := "", emailSending := false),
                   request, SentTo(|recipients|))
      case SendFail(error) =>
        Transition(busy.(emailSending := false), request, SendError(error))
      case SendTransportFail =>
        Transition(busy.(emailSending := false), request, SendUnreachable)
  }

  /** The summary editor's onChange (src/App.jsx:155). */
  function TypeSummaryStep(s: AppState, text: string): (t: AppState)
    ensures t.editedSummary == text && t.summary == s.summary
    ensures SameForm(s, t) && SameDialog(s, t) && t.loading == s.loading
  {
    s.(editedSummary := text)
  }

  /** The custom prompt's onChange (src/App.jsx:135). */
  function TypePromptStep(s: AppState, prompt: string): (t: AppState)
    ensures t.customPrompt == prompt && t.file == s.file
    ensures SameSummaries(s, t) && SameDialog(s, t) && t.loading == s.loading
  {
    s.(customPrompt := prompt)
  }

  /** The recipients field's onChange (src/App.jsx:185). */
  function TypeRecipientsStep(s: AppState, recipients: string): (t: AppState)
    ensures t.emailRecipients == recipients
    ensures t.showEmailDialog == s.showEmailDialog && t.emailSending == s.emailSending
    ensures SameForm(s, t) && SameSummaries(s, t) && t.loading == s.loading
  {
    s.(emailRecipients := recipients)
  }

  /** The Cancel button (src/App.jsx:190). */
  function CancelStep(s: AppState): (t: AppState)
    ensures !t.showEmailDialog && t.emailRecipients == s.emailRecipients
    ensures t.emailSending == s.emailSending
    ensures SameForm(s, t) && SameSummaries(s, t) && t.loading == s.loading
  {
    s.(showEmailDialog := false)
  }

  /** The platforms that the share buttons pass (src/App.jsx:159-167). */
  predicate IsShareButton(platform: string) {
    platform == "Email" || platform == "Slack" || platform == "Copy Link"
  }

  /** Whether the control that raises `e` is on screen and not disabled:
      the summarize button's `disabled` (line 143), the summary section
      shown only when there is a summary (line 149), the dialog shown only
      when visible (line 172), and its buttons' `disabled` (lines 191, 198). */
  predicate Enabled(s: AppState, e: Event) {
    match e
    case ChooseFile(_) => true
    case TypePrompt(_) => true
    case Summarize(_) => s.file.Some? && !s.loading
    case TypeSummary(_) => s.summary != ""
    case Share(platform) => s.summary != "" && IsShareButton(platform)
    case TypeRecipients(_) => s.showEmailDialog
    case CancelDialog => s.showEmailDialog && !s.emailSending
    case SendEmail(_) => s.showEmailDialog && !s.emailSending
  }

  /** What holds between events: no request is in flight (each handler and
      its answer form one step), and the edited summary can only be
      non-empty once a summary exists, since its editor is shown only then. */
  predicate Inv(s: AppState) {
    && !s.loading
    && !s.emailSending
    && (s.summary == "" ==> s.editedSummary == "")
  }

  /** One event; an event whose control is disabled or hidden changes nothing. */
  function Step(s: AppState, e: Event): (t: Transition)
    ensures !Enabled(s, e) ==> t == Transition(s, NoRequest, Silent)
    ensures Inv(s) ==> Inv(t.state)
    // every email that goes out carries a non-blank body, a summary exists,
    // and the recipient text was not blank (its entries may still be empty)
    ensures Inv(s) && t.effect.SendRequest? ==>
      s.summary != "" && !AllWs(t.effect.body) && !AllWs(s.emailRecipients)
    ensures t.effect.UploadRequest? ==> s.file == Some(t.effect.meetingNotes)
  {
    if !Enabled(s, e) then Transition(s, NoRequest, Silent)
    else
      match e
      case ChooseFile(chosen) => Transition(ChooseFileStep(s, chosen), NoRequest, Silent)
      case TypePrompt(prompt) => Transition(TypePromptStep(s, prompt), NoRequest, Silent)
      case Summarize(outcome) => SummarizeStep(s, outcome)
      case TypeSummary(text) => Transition(TypeSummaryStep(s, text), NoRequest, Silent)
      case Share(platform) => ShareStep(s, platform)
      case TypeRecipients(text) => Transition(TypeRecipientsStep(s, text), NoRequest, Silent)
      case CancelDialog => Transition(CancelStep(s), NoRequest, Silent)
      case SendEmail(outcome) => SendStep(s, outcome)
  }

  /** The state after a sequence of events. */
  function Run(s: AppState, events: seq<Event>): AppState
    decreases |events|
  {
    if events == [] then s else Run(Step(s, events[0]).state, events[1..])
  }

  /** The invariant holds after any sequence of events from the start. */
  lemma {:induction false} RunKeepsInv(s: AppState, events: seq<Event>)
    requires Inv(s)
    ensures Inv(Run(s, events))
    decreases |events|
  {
    if events != [] {
      RunKeepsInv(Step(s, events[0]).state, events[1..]);
    }
  }

  /** A state some sequence of events reaches from the initial one. */
  ghost predicate Reachable(s: AppState) {
    exists events :: Run(Initial(), events) == s
  }

  lemma ReachableInv(s: AppState)
    requires Reachable(s)
    ensures Inv(s)
  {
    var events :| Run(Initial(), events) == s;
    RunKeepsInv(Initial(), events);
  }

  /** Editing changes only the edited copy: the email that follows carries
      the edited text, not the generated one. */
  lemma EditedTextIsSent(s: AppState, text: string, outcome: SendOutcome)
    requires Inv(s) && s.summary != "" && s.showEmailDialog
    requires !AllWs(s.emailRecipients) && !AllWs(text)
    ensures Step(Step(s, TypeSummary(text)).state, SendEmail(outcome)).effect
      == SendRequest(ParseRecipients(s.emailRecipients), EmailSubject, text)
    ensures Step(Step(s, TypeSummary(text)).state, SendEmail(outcome)).state.summary == s.summary
  {
  }

  /** Choosing another file while the dialog is open clears both summaries
      but leaves the dialog up; a send from it is then refused. */
  lemma FileChangeLeavesDialogOpen(s: AppState, chosen: Option<SelectedFile>, outcome: SendOutcome)
    requires Inv(s) && s.showEmailDialog && !AllWs(s.emailRecipients)
    ensures Step(s, ChooseFile(chosen)).state.showEmailDialog
    ensures Step(Step(s, ChooseFile(chosen)).state, SendEmail(outcome))
      == Transition(Step(s, ChooseFile(chosen)).state, NoRequest, NoSummaryToSend)
  {
  }

  /** While a send is in flight neither dialog button does anything: the
      dialog stays up and no second request goes out. The atomic steps never
      expose such a state (ReachableInv gives `!emailSending`), so this only
      restates the `disabled` guards of Enabled for it. */
  lemma DialogLockedWhileSending(s: AppState, outcome: SendOutcome)
    requires s.emailSending
    ensures Step(s, CancelDialog) == Transition(s, NoRequest, Silent)
    ensures Step(s, SendEmail(outcome)) == Transition(s, NoRequest, Silent)
  {
  }

  /** Slack and Copy Link never open the dialog or issue a request. */
  lemma OtherChannelsInert(s: AppState, platform: string)
    requires platform == "Slack" || platform == "Copy Link"
    ensures Step(s, Share(platform)).state == s
    ensures Step(s, Share(platform)).effect == NoRequest
  {
  }
}
