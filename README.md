# AI Meeting Notes Summarizer: a verified model of the `App` component

The front end of the summarizer is one React component, `App`. It keeps
eight pieces of state:

- the chosen notes file;
- the generated summary and an editable copy of it;
- a custom prompt;
- the recipient field of the email dialog;
- three flags: an upload is running, the dialog is shown, a send is running.

Its handlers do four things. They upload the file with the prompt and take
back a summary, reset the summaries when another file is chosen, open the
email dialog, and send the edited summary to a comma-separated list of
addresses. This project models that component in three modules.

- `Recipients` (recipients.dfy) is the recipient parse
  `split(',').map(trim)`, written as pure functions. JavaScript's `trim` is
  modelled with an explicit white-space predicate `IsWs`, and `split` cuts
  at every comma and keeps empty pieces. The proved lemmas are:
  - `Split` and `Join` round-trip;
  - `Trim` is characterised by its result and is idempotent;
  - the parse has one entry per comma plus one, and no entry holds a comma
    or has white space at either end;
  - worked examples, including `",,"` giving three empty entries.
- `Workflow` (workflow.dfy) is the component state as a value. Each
  handler, taken together with the backend's answer, is a transition
  function that returns the new state, the request sent (an `Effect`) and
  the alert raised (a `Notice`). `Enabled` encodes the `disabled` attributes
  and conditional rendering. `Step` and `Run` apply events, and an
  invariant `Inv` is proved to hold after every sequence of events from the
  initial state.
- `Component` (app.dfy) is the component as a class. Its fields are the
  `useState` cells, and each handler is a method that runs the setters in
  the source's order. A raised flag (`loading`, `emailSending`) is lowered
  again on exit, as the `finally` blocks do. Every method's postcondition
  says that the new state, request and notice are exactly those of the
  matching `Workflow` transition.

The backend's answer is an input of each handler. `UploadOk(summary)`,
`UploadFail(error)` and `UploadTransportFail` stand for upload; send has
the same three forms. A network failure and a response that is not JSON
both count as the transport failure, because the source handles both in
the same `catch`.

## Model

| member | source | states |
|---|---|---|
| Recipients.IsWs | src/App.jsx:75 | the characters `trim` strips: tab, line feed, vertical tab, form feed, carriage return, space, no-break space, the Unicode space separators (U+1680, U+2000-U+200A, U+202F, U+205F, U+3000), the line and paragraph separators (U+2028, U+2029) and the byte-order mark (U+FEFF); the same set serves the blank tests at lines 64 and 69 |
| Recipients.Trim | src/App.jsx:64 | the trimmed text is empty exactly when the input is all white space, which is the blank test of both send guards |
| Recipients.TrimShape | src/App.jsx:75 | trimming cuts out a window: everything outside it is white space and the window has none at either end |
| Recipients.TrimCharacterized | src/App.jsx:75 | white space around a text with no white space at its ends is trimmed back to exactly that text |
| Recipients.TrimIdempotent | src/App.jsx:75 | trimming an already trimmed text changes nothing |
| Recipients.TrimCommaFree | src/App.jsx:75 | trimming a comma-free piece cannot introduce a comma |
| Recipients.Split | src/App.jsx:75 | splitting at commas gives one more piece than there are commas, and no piece holds a comma |
| Recipients.SplitJoinRoundTrip | src/App.jsx:75 | joining the pieces with commas gives the input back; comma-free pieces joined with commas split back into the same pieces |
| Recipients.ParseRecipients | src/App.jsx:75 | the recipient list has one entry per comma plus one; each entry is the trimmed piece at that position, holds no comma and has no white space at its ends |
| Recipients.EmptyPiecesKept | src/App.jsx:75 | `",,"` is not blank, so it passes the guard, and it parses to three empty recipients: nothing is filtered out |
| Recipients.TwoAddresses | src/App.jsx:75 | `"a@x.com, b@y.com"` parses to two entries, `"a@x.com"` and `"b@y.com"` |
| Recipients.TwoAddressesParsed | src/App.jsx:75 | the same parse, stated as one list |
| Workflow.CanSend | src/App.jsx:64-72 | the two send guards passed: the recipient text is not all white space and the edited summary is not all white space; SendStep proves it is exactly when a request goes out |
| Workflow.IsShareButton | src/App.jsx:159-167 | the three platforms the share buttons pass: "Email", "Slack" and "Copy Link" |
| Workflow.Enabled | src/App.jsx:143-198 | which controls are live: Summarize needs a file and no upload running (line 143); the summary editor and the share buttons need a summary (line 149); the recipient field, Cancel and Send need the dialog (line 172); Cancel and Send also need no send running (lines 191, 198); the file picker and the prompt are always live |
| Workflow.Initial | src/App.jsx:6-13 | no file, empty texts, and every flag false |
| Workflow.SummarizeStep | src/App.jsx:16-47 | with no file the state is unchanged and nothing is sent; otherwise the file and the prompt are uploaded, success copies the returned summary into both the summary and the edited copy, failure leaves both alone with the matching alert, and `loading` ends false; the form and dialog fields never change |
| Workflow.ChooseFileStep | src/App.jsx:49-53 | the chosen file (possibly none) is stored, both summaries become empty, and nothing else changes |
| Workflow.ShareStep | src/App.jsx:55-61 | "Email" opens the dialog and changes nothing else; any other platform leaves the state unchanged and raises the coming-soon notice for that platform; no request either way |
| Workflow.SendStep | src/App.jsx:63-105 | blank recipients are refused first, then a blank edited summary, each with no request and no change; otherwise the parsed recipients, the subject "Meeting Summary" and the edited text are sent; success closes the dialog, clears the recipients and reports the parsed count; failure keeps both; `emailSending` ends false; the summaries and the form never change |
| Workflow.TypeSummaryStep | src/App.jsx:155 | only the edited copy changes; the generated summary stays |
| Workflow.TypePromptStep | src/App.jsx:135 | only the custom prompt changes |
| Workflow.TypeRecipientsStep | src/App.jsx:185 | only the recipient text changes |
| Workflow.CancelStep | src/App.jsx:190 | the dialog closes while the recipients and everything else are kept |
| Workflow.Step | src/App.jsx:140-201 | an event whose control is disabled or hidden does nothing; the invariant is preserved; every email sent carries a non-blank body, a summary exists at that point, and the recipient text is not blank, although its entries may still be empty (see EmptyPiecesKept); every upload sends the file currently chosen |
| Workflow.RunKeepsInv | src/App.jsx:6-105 | after any sequence of events, no request is in flight and the edited copy is empty whenever the summary is |
| Workflow.ReachableInv | src/App.jsx:6-105 | every state reachable from the initial one satisfies that invariant |
| Workflow.EditedTextIsSent | src/App.jsx:155 | after an edit, the email that follows carries the edited text, and the generated summary is unchanged |
| Workflow.FileChangeLeavesDialogOpen | src/App.jsx:49-53 | choosing a file while the dialog is open keeps the dialog open, and a send from it is then refused as having no summary |
| Workflow.DialogLockedWhileSending | src/App.jsx:188-199 | for a state with a send in flight, which the atomic steps never expose (see ReachableInv), Cancel and Send do nothing; this restates the `disabled` guards of `Enabled` |
| Workflow.OtherChannelsInert | src/App.jsx:59 | Slack and Copy Link change no state and send nothing |
| Component.App.constructor | src/App.jsx:6-13 | the fields start at the initial state |
| Component.App.HandleSummarize | src/App.jsx:16-47 | the new state, the upload request and the alert are those of `SummarizeStep` |
| Component.App.HandleFileChange | src/App.jsx:49-53 | the new state is that of `ChooseFileStep` |
| Component.App.HandleShare | src/App.jsx:55-61 | the new state and the notice are those of `ShareStep` |
| Component.App.HandleSendEmail | src/App.jsx:63-105 | the new state, the send request and the alert are those of `SendStep` |
| Component.App.EditSummary | src/App.jsx:155 | the new state is that of `TypeSummaryStep` |
| Component.App.EditPrompt | src/App.jsx:135 | the new state is that of `TypePromptStep` |
| Component.App.EditRecipients | src/App.jsx:185 | the new state is that of `TypeRecipientsStep` |
| Component.App.Cancel | src/App.jsx:190 | the new state is that of `CancelStep` |
| Component.EditAndSend | src/App.jsx:63-105 | a session that uploads, edits the summary to "edited", opens the dialog, enters two addresses and sends successfully sends "edited" to those two trimmed addresses and reports two recipients |

## Left out

- `fetch`, `FormData`, the JSON bodies and the `localhost:3001` endpoints are network I/O. A request is an `Effect` value and the answer is an input; headers and the URL are not modelled.
- `alert` and `console.error` are UI side effects. An alert is a `Notice` tag that carries the values the message interpolates; the wording and the console are not modelled.
- The JSX, the stylesheet import, the `accept` attribute and the button labels are presentation. Only the `disabled` conditions (lines 143, 191, 198) and the conditional sections (lines 149, 172) are kept, as `Enabled`.
- The interleaving of awaited requests with other events is left out. Each handler and its answer form one atomic step, so `loading` and `emailSending` are raised and lowered within that step. Two clicks during one request, or typing during a send, are therefore not modelled.
- Sharing to Slack and Copy Link are placeholders in the source; only their notice is modelled.
- File contents, document parsing and the AI summarisation happen in the backend, which is not part of this model. The file is an opaque `SelectedFile`.
- Workflow.SummarizeStep: a successful answer whose `summary` is missing (`undefined`) is not modelled, since `UploadOk` always carries a string.
- Workflow.SummarizeStep: a response that is not JSON is folded into `UploadTransportFail`; `SendStep` does the same with `SendTransportFail`.
- Recipients.IsWs: this is an abstraction of the white-space table of the JavaScript engine. It is the ECMAScript WhiteSpace and LineTerminator code points, with category Zs written out; later Unicode versions are not followed.
- Recipients.ParseRecipients: UTF-16 code units and surrogate pairs are not modelled, because a Dafny `char` is a code point.
