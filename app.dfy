/**
 * The `App` component itself (src/App.jsx:5-105): its `useState` cells
 * are fields, and each handler is a method that runs its setters in the
 * source's order, including the `loading`/`emailSending` flag raised on
 * entry and lowered in the `finally` block. Each method is specified by the
 * matching transition of the Workflow module, whose properties are proved
 * there.
 */
module Component {
  import opened Recipients
  import opened Workflow

  class App {
    var file: Option<SelectedFile>
    var summary: string
    var loading: bool
    var customPrompt: string
    var editedSummary: string
    var emailRecipients: string
    var showEmailDialog: bool
    var emailSending: bool

    /** The component's state as a value. */
    function State(): AppState
      reads this
    {
      AppState(file, summary, loading, customPrompt, editedSummary,
               emailRecipients, showEmailDialog, emailSending)
    }

    constructor ()
      ensures State() == Initial()
    {
      file := None;
      summary := "";
      loading := false;
      customPrompt := "";
      editedSummary := "";
      emailRecipients := "";
      showEmailDialog := false;
      emailSending := false;
    }

    method HandleSummarize(outcome: UploadOutcome) returns (effect: Effect, notice: Notice)
      modifies this
      ensures Transition(State(), effect, notice) == SummarizeStep(old(State()), outcome)
    {
      if file.None? {
        effect, notice := NoRequest, SelectFileFirst;
        return;
      }
      loading := true;
      effect := UploadRequest(file.value, customPrompt);
      match outcome {
        case UploadOk(text) =>
          summary := text;
          editedSummary := text;
          notice := Silent;
        case UploadFail(error) =>
          notice := UploadError(error);
        case UploadTransportFail =>
          notice := ServerUnreachable;
      }
      loading := false;
    }

    method HandleFileChange(chosen: Option<SelectedFile>)
      modifies this
      ensures State() == ChooseFileStep(old(State()), chosen)
    {
      file := chosen;
      summary := "";
      editedSummary := "";
    }

    method HandleShare(platform: string) returns (notice: Notice)
      modifies this
      ensures Transition(State(), NoRequest, notice) == ShareStep(old(State()), platform)
    {
      if platform == EmailPlatform {
        showEmailDialog := true;
        notice := Silent;
      } else {
        notice := ComingSoon(platform);
      }
    }

    method HandleSendEmail(outcome: SendOutcome) returns (effect: Effect, notice: Notice)
      modifies this
      ensures Transition(State(), effect, notice) == SendStep(old(State()), outcome)
    {
      if Trim(emailRecipients) == "" {
        effect, notice := NoRequest, NeedRecipient;
        return;
      }
      if Trim(editedSummary) == "" {
        effect, notice := NoRequest, NoSummaryToSend;
        return;
      }
      emailSending := true;
      var recipients := ParseRecipients(emailRecipients);
      effect := SendRequest(recipients, EmailSubject, editedSummary);
      match outcome {
        case SendOk =>
          notice := SentTo(|recipients|);
          showEmailDialog := false;
          emailRecipients := "";
        case SendFail(error) =>
          notice := SendError(error);
        case SendTransportFail =>
          notice := SendUnreachable;
      }
      emailSending := false;
    }

    /** The summary editor's onChange. */
    method EditSummary(text: string)
      modifies this
      ensures State() == TypeSummaryStep(old(State()), text)
    {
      editedSummary := text;
    }

    /** The custom prompt's onChange. */
    method EditPrompt(prompt: string)
      modifies this
      ensures State() == TypePromptStep(old(State()), prompt)
    {
      customPrompt := prompt;
    }

    /** The recipients field's onChange. */
    method EditRecipients(recipients: string)
      modifies this
      ensures State() == TypeRecipientsStep(old(State()), recipients)
    {
      emailRecipients := recipients;
    }

    /** The dialog's Cancel button. */
    method Cancel()
      modifies this
      ensures State() == CancelStep(old(State()))
    {
      showEmailDialog := false;
    }
  }

  /** A session as a client of the class sees it: upload, edit, share by
      email, send. What is sent is the edited text to the two addresses. */
  method EditAndSend(notes: SelectedFile) returns (effect: Effect, notice: Notice)
    ensures effect == SendRequest(["a@x.com", "b@y.com"], EmailSubject, "edited")
    ensures notice == SentTo(2)
  {
    var app := new App();
    app.HandleFileChange(Some(notes));
    var upload, uploadNotice := app.HandleSummarize(UploadOk("generated"));
    assert app.summary == "generated";
    app.EditSummary("edited");
    var shareNotice := app.HandleShare(EmailPlatform);
    app.EditRecipients("a@x.com, b@y.com");
    assert !AllWs(app.emailRecipients) by {
      assert !IsWs(app.emailRecipients[0]);
    }
    assert !AllWs(app.editedSummary) by {
      assert !IsWs(app.editedSummary[0]);
    }
    TwoAddressesParsed();
    effect, notice := app.HandleSendEmail(SendOk);
    assert app.summary == "generated";
  }
}
