# AI typewriter editor: a Dafny model of the document-update rules

The editor page (`Home` in `src/app/page.tsx`) holds a document, a context panel with
suggestions and a saved context, two instruction dialogs and an API key. Its buttons call
three language-model flows: text continuation, contextual suggestions and targeted revisions
(global edit uses the targeted-revisions flow too). The page then patches the answer into the
document with plain string operations. This project models those handlers and the string
operations, and proves what they do to the editor state.

Layout:

- `wrappers.dfy` (`Wrappers`): `Option`, and `Result` (a flow's output or its error message).
- `splice.dfy` (`TextSplice`): JavaScript's `indexOf` as a recursive first-occurrence search.
  It also holds the first-occurrence splice used by targeted revision, with the lemmas about it.
- `flows.dfy` (`Flows`): the request and response records of the three flows.
- `page.dfy` (`Page`): class `Home`, whose fields are the page's state. It has one method per
  event handler or bound input. `State()` snapshots all fields, so every contract states the
  whole new state as an update of the old one.
- `scenarios.dfy` (`Scenarios`): event sequences run on a fresh `Home`, with what they send
  and what the document becomes.

A handler that calls a flow is split at its `await` into two methods. `BeginX` runs the
API-key gate and returns the request it sends, or `None` when it sends nothing. `FinishX`
takes the flow's outcome and applies the updates that follow it. Other events, such as typing,
may run between the two. This is how the model states the difference between the handlers.
Continuation appends to the document as it is when the answer arrives (the updater's
`prevText`). Targeted revision searches for the selection in `text` as it was captured when
the handler started (`src/app/page.tsx:147`), not in `prevText`, so edits made while that
call is pending are lost.

## Model

| member | source | states |
|---|---|---|
| TextSplice.IndexOfFrom | src/app/page.tsx:147 | the search from a start position returns -1 exactly when the pattern occurs nowhere, and otherwise returns the first occurrence (no earlier index matches) |
| TextSplice.IndexOf | src/app/page.tsx:147 | `text.indexOf(selectedText)`: -1 exactly when the selection is absent, otherwise the index of its first occurrence |
| TextSplice.FirstOccurrenceUnique | src/app/page.tsx:147 | at most one index is the first occurrence |
| TextSplice.SpliceRange | src/app/page.tsx:151 | replacing a span keeps the text before it, puts the new text at its start, keeps the text after it, and the length changes by the length difference |
| TextSplice.ReplaceFirst | src/app/page.tsx:146-152 | when the selection is absent the document comes back unchanged; otherwise the result is the splice at the first occurrence |
| TextSplice.ReplaceFirstAt | src/app/page.tsx:147-151 | given the first occurrence, the revision equals the position-based splice of exactly that span |
| TextSplice.ReplaceFirstParts | src/app/page.tsx:151 | the result is the prefix before the first occurrence, then the revised text, then the rest after the occurrence; its length is the document's minus the selection's plus the revised text's |
| TextSplice.ReplaceFirstEmptySelection | src/app/page.tsx:147-151 | an empty selection matches at index 0, so the revised text is prepended |
| TextSplice.ReplaceFirstWithSelf | src/app/page.tsx:151 | revising the selection into itself leaves the document unchanged |
| TextSplice.ReplaceFirstKeepsLaterCopy | src/app/page.tsx:147-151 | for every document, a later copy of the selection that does not overlap the first occurrence is still present after the revision, shifted by the change in length: only the first copy is revised, even when a later copy was the one selected |
| Page.InstructionOrDefault | src/app/page.tsx:143 | a revision request never carries empty instructions: empty instructions become "Rewrite", others are sent as typed |
| Page.Home.constructor | src/app/page.tsx:26-39 | all text fields start empty, the suggestion list empty, both dialogs closed, no notification |
| Page.Home.EditText | src/app/page.tsx:310 | typing in the editor sets the document and nothing else |
| Page.Home.SetContextText | src/app/page.tsx:221 | typing in the context box sets the context text and nothing else |
| Page.Home.SetSavedContext | src/app/page.tsx:265 | typing in the saved-context box sets the saved context and nothing else |
| Page.Home.SetApiKey | src/app/page.tsx:284 | typing in the key box sets the API key and nothing else |
| Page.Home.SetTargetedRevisionInstructions | src/app/page.tsx:327 | sets the targeted-revision instructions and nothing else |
| Page.Home.CancelTargetedRevision | src/app/page.tsx:332 | the Cancel button's handler clears the targeted-revision dialog's instructions and nothing else (the button also closes the dialog through `onOpenChange` at line 314, which is not modelled) |
| Page.Home.SetGlobalEditInstructions | src/app/page.tsx:350 | sets the global-edit instructions and nothing else |
| Page.Home.CancelGlobalEdit | src/app/page.tsx:355 | the Cancel button's handler clears the global-edit dialog's instructions and nothing else (the button also closes the dialog through `onOpenChange` at line 337, which is not modelled) |
| Page.Home.BeginTextContinuation | src/app/page.tsx:56-67 | with an empty key: no request, only the "API Key Required" notification; otherwise it sends the document, the saved context and the key, and changes nothing |
| Page.Home.FinishTextContinuation | src/app/page.tsx:67-75 | success appends the continued text to the current document; failure changes only the notification, which carries the error message |
| Page.Home.BeginContextualSuggestions | src/app/page.tsx:78-93 | with an empty key: no request, only the notification; otherwise it sends the fixed prompt, the context text and the key, and changes nothing |
| Page.Home.FinishContextualSuggestions | src/app/page.tsx:89-101 | success replaces the suggestion list with the returned one; failure changes only the notification |
| Page.Home.SaveSuggestion | src/app/page.tsx:104-110 | the saved context becomes the old saved context, a newline and the suggestion; apart from the "Suggestion Saved" notification nothing else changes |
| Page.Home.OpenTargetedRevision | src/app/page.tsx:112-126 | on an empty document only the "No Text Selected" notification; otherwise a non-null `window.getSelection()` result becomes the selected text (`Some("")` when nothing is highlighted, which clears it) and the dialog opens |
| Page.Home.BeginTargetedRevision | src/app/page.tsx:128-145 | with an empty key: no request and the handler leaves the dialog as it was (the Revise button, a dialog action, still closes it through `onOpenChange` at line 314, which is not modelled); otherwise the dialog closes and it sends the selection, the document, the instructions or "Rewrite", and the key |
| Page.Home.FinishTargetedRevision | src/app/page.tsx:146-160 | success sets the document to the first-occurrence splice into the document that was sent, not the current one, and clears the selection; failure leaves document and selection unchanged |
| Page.Home.OpenGlobalEdit | src/app/page.tsx:163-165 | opens the global-edit dialog and changes nothing else |
| Page.Home.BeginGlobalEdit | src/app/page.tsx:167-184 | with an empty key: no request and the handler leaves the dialog as it was (the Apply button, a dialog action, still closes it through `onOpenChange` at line 337, which is not modelled); otherwise the dialog closes and it sends the whole document as both selection and full document, with the instructions or "Rewrite" |
| Page.Home.FinishGlobalEdit | src/app/page.tsx:185-192 | success replaces the whole document with the revised text; failure changes only the notification |
| Scenarios.ContinuationKeepsPendingEdits | src/app/page.tsx:66-68 | the request carries the document of the click; the final document is that document, then what was typed while pending, then the continuation, so the old document is a prefix of the new one |
| Scenarios.TargetedRevisionDiscardsPendingEdits | src/app/page.tsx:139-153 | whatever was typed while the call was pending, the final document is the splice into the document of the click; it is that document unchanged when the selection is absent; the selection ends empty |
| Scenarios.RevisionOverwritesEarlierContinuation | src/app/page.tsx:146-152 | a continuation that lands while a targeted revision is pending extends the document, and the revision's answer then replaces it with the splice into the document of the revision's click, losing the continuation |
| Scenarios.FailedRevisionKeepsSelection | src/app/page.tsx:153-160 | a failed revision leaves document and selection as they were and shows the error message |
| Scenarios.GlobalEditReplacesDocument | src/app/page.tsx:177-185 | the request's selection and full document are both the document; empty instructions are sent as "Rewrite"; the document becomes the revised text |
| Scenarios.NoKeyNoFlowCalls | src/app/page.tsx:56-64 | without a key none of the four flow-backed actions sends a request, and document, saved context, suggestions and selection are unchanged |
| Scenarios.SaveTwoSuggestions | src/app/page.tsx:104-105 | two saves build the saved context as newline, first suggestion, newline, second suggestion; the document is untouched |
| Scenarios.EmptyDocumentDoesNotOpenRevision | src/app/page.tsx:112-125 | on an empty document the targeted-revision dialog does not open and no selection is captured |

## Left out

- The flows under `src/ai/flows/` are not part of this model. They build a prompt from a template, call a hosted model and validate its output. Their outcomes are `Result` parameters of the `FinishX` methods, and their requests are returned by the `BeginX` methods. `plotline-outline.ts` is not used by the page.
- `src/components/copy-to-clipboard.tsx` is not part of this model: it does clipboard I/O and runs a two-second reset timer.
- Reading and writing the API key in `localStorage` (`src/app/page.tsx:41-54`) is browser storage I/O and is left out; the key enters through `SetApiKey`.
- `window.getSelection()` is a browser call; its result is the `selection` parameter of `OpenTargetedRevision`. `None` stands for a null result (no browsing context). With nothing highlighted the browser yields `Some("")`, and a following revision prepends the revised text.
- Notifications are reduced to the most recent one (`lastToast`): their display, timeout and dismissal are UI.
- The rendering, the context-panel and help toggles (`showContextPanel`, `showHelp`), and the dialogs closing themselves through the dialog component's `onOpenChange` (`src/app/page.tsx:314`, `337`) are UI-library behaviour and are left out.
- Overlapping calls are modelled only as interleavings of atomic `Begin`/`Finish` steps with other events; the browser's scheduling of several pending calls is not modelled.
- Strings are sequences of Unicode characters. JavaScript's `indexOf`, `substring` and `length` count UTF-16 code units, so indices differ from the model's for characters outside the Basic Multilingual Plane.
- The continuation request carries the API key because the page passes it. The continuation flow's input schema does not declare a key, and what the flow does with it is not modelled.
- The `explanation` field of a revision answer is carried in `RevisionResponse` but the page never uses it.
