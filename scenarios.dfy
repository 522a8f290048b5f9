/** Sequences of user events run against a fresh editor, showing what the handlers do
    together: what is sent, what the document becomes, and what a pending call keeps or
    discards. */
module Scenarios {

  import opened Wrappers
  import opened Flows
  import opened TextSplice
  import opened Page

  /** A continuation appends to the document as it is when the answer arrives: the
      request carries the document of the click, and text typed while the call was
      pending stays in front of the continuation. */
  method ContinuationKeepsPendingEdits(key: string, doc: string, typed: string, continued: string)
    returns (sentText: string, finalText: string)
    requires key != ""
    ensures sentText == doc
    ensures finalText == doc + typed + continued
    ensures doc <= finalText
  {
    var home := new Home();
    home.SetApiKey(key);
    home.EditText(doc);
    var req := home.BeginTextContinuation();
    sentText := req.value.existingText;
    home.EditText(doc + typed);
    home.FinishTextContinuation(Ok(ContinuationResponse(continued)));
    finalText := home.text;
    assert finalText[..|doc|] == doc;
  }

  /** A targeted revision splices into the document captured at the click: whatever the
      user typed while the call was pending is overwritten, and the selection is
      cleared. */
  method TargetedRevisionDiscardsPendingEdits(
    key: string, doc: string, selection: string, instructions: string, edited: string, revised: string)
    returns (sent: RevisionRequest, finalText: string, finalSelection: string)
    requires key != "" && doc != ""
    ensures sent == RevisionRequest(selection, doc, InstructionOrDefault(instructions), key)
    ensures finalText == ReplaceFirst(doc, selection, revised)
    ensures !Contains(doc, selection) ==> finalText == doc
    ensures finalSelection == ""
  {
    var home := new Home();
    home.SetApiKey(key);
    home.EditText(doc);
    home.OpenTargetedRevision(Some(selection));
    home.SetTargetedRevisionInstructions(instructions);
    var req := home.BeginTargetedRevision();
    sent := req.value;
    home.EditText(edited);
    home.FinishTargetedRevision(sent, Ok(RevisionResponse(revised, None)));
    finalText, finalSelection := home.text, home.selectedText;
  }

  /** Two overlapping calls: a continuation that arrives while a targeted revision is
      still pending is lost when the revision's answer is applied, because the revision
      splices into the document captured at its own click. */
  method RevisionOverwritesEarlierContinuation(
    key: string, doc: string, selection: string, continued: string, revised: string)
    returns (afterContinuation: string, finalText: string)
    requires key != "" && doc != ""
    ensures afterContinuation == doc + continued
    ensures finalText == ReplaceFirst(doc, selection, revised)
  {
    var home := new Home();
    home.SetApiKey(key);
    home.EditText(doc);
    home.OpenTargetedRevision(Some(selection));
    var revision := home.BeginTargetedRevision();
    var continuation := home.BeginTextContinuation();
    home.FinishTextContinuation(Ok(ContinuationResponse(continued)));
    afterContinuation := home.text;
    home.FinishTargetedRevision(revision.value, Ok(RevisionResponse(revised, None)));
    finalText := home.text;
  }

  /** A failed targeted revision leaves the document and the selection as they were and
      reports the error message. */
  method FailedRevisionKeepsSelection(key: string, doc: string, selection: string, message: string)
    returns (finalText: string, finalSelection: string, toast: Option<Toast>)
    requires key != "" && doc != ""
    ensures finalText == doc && finalSelection == selection
    ensures toast == Some(Toast(true, "Error", message))
  {
    var home := new Home();
    home.SetApiKey(key);
    home.EditText(doc);
    home.OpenTargetedRevision(Some(selection));
    var req := home.BeginTargetedRevision();
    home.FinishTargetedRevision(req.value, Err(message));
    finalText, finalSelection, toast := home.text, home.selectedText, home.lastToast;
  }

  /** A global edit sends the whole document as both selection and full document, and the
      answer replaces the document outright. */
  method GlobalEditReplacesDocument(key: string, doc: string, instructions: string, revised: string)
    returns (sent: RevisionRequest, finalText: string)
    requires key != ""
    ensures sent.selectedText == doc && sent.fullDocument == doc
    ensures sent.revisionRequest == (if instructions == "" then "Rewrite" else instructions)
    ensures finalText == revised
  {
    var home := new Home();
    home.SetApiKey(key);
    home.EditText(doc);
    home.OpenGlobalEdit();
    home.SetGlobalEditInstructions(instructions);
    var req := home.BeginGlobalEdit();
    sent := req.value;
    home.FinishGlobalEdit(Ok(RevisionResponse(revised, None)));
    finalText := home.text;
  }

  /** With no API key none of the four flow-backed actions sends anything, and the
      document, the saved context, the suggestions and the selection stay as they were;
      the last thing shown is the "API Key Required" notification. */
  method NoKeyNoFlowCalls(doc: string, context: string, selection: string)
    returns (anySent: bool, finalText: string, finalContext: string,
             finalSuggestions: seq<Suggestion>, finalSelection: string, toast: Option<Toast>)
    requires doc != ""
    ensures !anySent
    ensures finalText == doc && finalContext == context && finalSuggestions == []
    ensures finalSelection == selection
    ensures toast == Some(Toast(true, "API Key Required", "Please enter your API key."))
  {
    var home := new Home();
    home.EditText(doc);
    home.SetSavedContext(context);
    home.OpenTargetedRevision(Some(selection));
    var c := home.BeginTextContinuation();
    var s := home.BeginContextualSuggestions();
    var t := home.BeginTargetedRevision();
    home.OpenGlobalEdit();
    var g := home.BeginGlobalEdit();
    anySent := c.Some? || s.Some? || t.Some? || g.Some?;
    finalText, finalContext := home.text, home.savedContext;
    finalSuggestions, finalSelection, toast := home.suggestions, home.selectedText, home.lastToast;
  }

  /** Saving two suggestions in turn builds the saved context line by line. */
  method SaveTwoSuggestions(first: string, second: string) returns (finalContext: string, finalText: string)
    ensures finalContext == "\n" + first + "\n" + second
    ensures finalText == ""
  {
    var home := new Home();
    home.SaveSuggestion(first);
    home.SaveSuggestion(second);
    finalContext, finalText := home.savedContext, home.text;
  }

  /** On an empty document the targeted-revision dialog does not open and the selection
      is not captured. */
  method EmptyDocumentDoesNotOpenRevision(selection: string) returns (isOpen: bool, captured: string)
    ensures !isOpen && captured == ""
  {
    var home := new Home();
    home.OpenTargetedRevision(Some(selection));
    isOpen, captured := home.targetedRevisionOpen, home.selectedText;
  }
}
