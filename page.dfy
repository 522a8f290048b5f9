/** The editor page (`Home`): its state fields and the event handlers that change them.
    Each handler that calls a flow is split at its `await`: `BeginX` runs up to the call
    (the API-key gate, the request built from the state of that moment) and returns the
    request it sends, or None when it sends nothing; `FinishX` runs the state updates that
    follow the awaited outcome. Other events (typing, for one) may run in between. */
module Page {

  import opened Wrappers
  import opened Flows
  import opened TextSplice

  /** A notification shown to the user. */
  datatype Toast = Toast(destructive: bool, title: string, description: string)

  const ApiKeyRequiredToast := Toast(true, "API Key Required", "Please enter your API key.")
  const SuggestionSavedToast := Toast(false, "Suggestion Saved", "The suggestion has been saved to the context.")
  const NoTextSelectedToast := Toast(false, "No Text Selected", "Please enter text in the editor.")

  /** The destructive notification that reports a failed flow call. */
  function ErrorToast(message: string): Toast
  {
    Toast(true, "Error", message)
  }

  /** The fixed request text of the suggestion flow. */
  const SuggestionPrompt := "Suggest character development and plot ideas"

  /** What a revision request carries as its instruction: the user's instructions, or
      "Rewrite" when they left them empty (JavaScript's `instructions || 'Rewrite'`). */
  function InstructionOrDefault(instructions: string): (r: string)
    ensures r != ""
    ensures instructions != "" ==> r == instructions
    ensures instructions == "" ==> r == "Rewrite"
  {
    if instructions == "" then "Rewrite" else instructions
  }

  /** All editor state at one moment, so that contracts can say "nothing else changed". */
  datatype EditorState = EditorState(
    text: string,
    contextText: string,
    suggestions: seq<Suggestion>,
    targetedRevisionOpen: bool,
    globalEditOpen: bool,
    targetedRevisionInstructions: string,
    globalEditInstructions: string,
    selectedText: string,
    savedContext: string,
    apiKey: string,
    lastToast: Option<Toast>)

  class Home {
    var text: string
    var contextText: string
    var suggestions: seq<Suggestion>
    var targetedRevisionOpen: bool
    var globalEditOpen: bool
    var targetedRevisionInstructions: string
    var globalEditInstructions: string
    var selectedText: string
    var savedContext: string
    var apiKey: string
    var lastToast: Option<Toast>  // the most recent notification, if any

    function State(): EditorState
      reads this
    {
      EditorState(text, contextText, suggestions, targetedRevisionOpen, globalEditOpen,
                  targetedRevisionInstructions, globalEditInstructions, selectedText,
                  savedContext, apiKey, lastToast)
    }

    /** Every field starts empty, closed or false; no key has been entered. */
    constructor ()
      ensures State() == EditorState("", "", [], false, false, "", "", "", "", "", None)
    {
      text, contextText, suggestions := "", "", [];
      targetedRevisionOpen, globalEditOpen := false, false;
      targetedRevisionInstructions, globalEditInstructions := "", "";
      selectedText, savedContext, apiKey := "", "", "";
      lastToast := None;
    }

    // ---- user input bound directly to a field ----

    /** The user edits the document. */
    method EditText(t: string)
      modifies this
      ensures State() == old(State()).(text := t)
    {
      text := t;
    }

    /** The user edits the context the suggestion flow works from. */
    method SetContextText(t: string)
      modifies this
      ensures State() == old(State()).(contextText := t)
    {
      contextText := t;
    }

    /** The user edits the saved context directly. */
    method SetSavedContext(t: string)
      modifies this
      ensures State() == old(State()).(savedContext := t)
    {
      savedContext := t;
    }

    /** The user types an API key. */
    method SetApiKey(key: string)
      modifies this
      ensures State() == old(State()).(apiKey := key)
    {
      apiKey := key;
    }

    /** The user types targeted-revision instructions. */
    method SetTargetedRevisionInstructions(t: string)
      modifies this
      ensures State() == old(State()).(targetedRevisionInstructions := t)
    {
      targetedRevisionInstructions := t;
    }

    /** Cancel in the targeted-revision dialog clears its instructions. */
    method CancelTargetedRevision()
      modifies this
      ensures State() == old(State()).(targetedRevisionInstructions := "")
    {
      targetedRevisionInstructions := "";
    }

    /** The user types global-edit instructions. */
    method SetGlobalEditInstructions(t: string)
      modifies this
      ensures State() == old(State()).(globalEditInstructions := t)
    {
      globalEditInstructions := t;
    }

    /** Cancel in the global-edit dialog clears its instructions. */
    method CancelGlobalEdit()
      modifies this
      ensures State() == old(State()).(globalEditInstructions := "")
    {
      globalEditInstructions := "";
    }

    // ---- text continuation ----

    /** Without a key: a notification and no call. With one: the current document, the
        saved context and the key are sent, and nothing changes yet. */
    method BeginTextContinuation() returns (req: Option<ContinuationRequest>)
      modifies this
      ensures old(apiKey) == "" ==>
        req == None && State() == old(State()).(lastToast := Some(ApiKeyRequiredToast))
      ensures old(apiKey) != "" ==>
        req == Some(ContinuationRequest(old(text), old(savedContext), old(apiKey)))
        && State() == old(State())
    {
      if apiKey == "" {
        lastToast := Some(ApiKeyRequiredToast);
        return None;
      }
      req := Some(ContinuationRequest(text, savedContext, apiKey));
    }

    /** The continued text is appended to the document as it is NOW (the updater's
        `prevText`), so edits made while the call was pending are kept. */
    method FinishTextContinuation(outcome: Result<ContinuationResponse>)
      modifies this
      ensures outcome.Ok? ==>
        State() == old(State()).(text := old(text) + outcome.value.continuedText)
      ensures outcome.Err? ==>
        State() == old(State()).(lastToast := Some(ErrorToast(outcome.message)))
    {
      match outcome
      case Ok(response) =>
        text := text + response.continuedText;
      case Err(message) =>
        lastToast := Some(ErrorToast(message));
    }

    // ---- contextual suggestions ----

    /** Without a key: a notification and no call. With one: the fixed prompt, the
        context text (not the saved context) and the key are sent. */
    method BeginContextualSuggestions() returns (req: Option<SuggestionRequest>)
      modifies this
      ensures old(apiKey) == "" ==>
        req == None && State() == old(State()).(lastToast := Some(ApiKeyRequiredToast))
      ensures old(apiKey) != "" ==>
        req == Some(SuggestionRequest(SuggestionPrompt, old(contextText), old(apiKey)))
        && State() == old(State())
    {
      if apiKey == "" {
        lastToast := Some(ApiKeyRequiredToast);
        return None;
      }
      req := Some(SuggestionRequest(SuggestionPrompt, contextText, apiKey));
    }

    /** The returned list replaces the shown suggestions. */
    method FinishContextualSuggestions(outcome: Result<SuggestionResponse>)
      modifies this
      ensures outcome.Ok? ==>
        State() == old(State()).(suggestions := outcome.value.suggestions)
      ensures outcome.Err? ==>
        State() == old(State()).(lastToast := Some(ErrorToast(outcome.message)))
    {
      match outcome
      case Ok(response) =>
        suggestions := response.suggestions;
      case Err(message) =>
        lastToast := Some(ErrorToast(message));
    }

    /** Saving a suggestion appends a newline and the suggestion to the saved context. */
    method SaveSuggestion(suggestion: string)
      modifies this
      ensures State() == old(State()).(savedContext := old(savedContext) + "\n" + suggestion,
                                       lastToast := Some(SuggestionSavedToast))
    {
      savedContext := savedContext + "\n" + suggestion;
      lastToast := Some(SuggestionSavedToast);
    }

    // ---- targeted revision ----

    /** With an empty document: a notification, and the dialog stays closed. Otherwise the
        result of `window.getSelection()` is captured as `selectedText` and the dialog opens.
        `None` stands for a null result (no browsing context); with nothing highlighted the
        browser yields `Some("")`, which clears the selection, and a following revision
        then prepends the revised text. */
    method OpenTargetedRevision(selection: Option<string>)
      modifies this
      ensures old(text) == "" ==>
        State() == old(State()).(lastToast := Some(NoTextSelectedToast))
      ensures old(text) != "" ==>
        State() == old(State()).(
          selectedText := if selection.Some? then selection.value else old(selectedText),
          targetedRevisionOpen := true)
    {
      if text != "" {
        if selection.Some? {
          selectedText := selection.value;
        }
        targetedRevisionOpen := true;
      } else {
        lastToast := Some(NoTextSelectedToast);
      }
    }

    /** Without a key: a notification, no call, and the handler leaves the dialog as it is. With one:
        the dialog closes and the captured selection, the current document and the
        instructions (or "Rewrite") are sent. */
    method BeginTargetedRevision() returns (req: Option<RevisionRequest>)
      modifies this
      ensures old(apiKey) == "" ==>
        req == None && State() == old(State()).(lastToast := Some(ApiKeyRequiredToast))
      ensures old(apiKey) != "" ==>
        req == Some(RevisionRequest(old(selectedText), old(text),
                                    InstructionOrDefault(old(targetedRevisionInstructions)), old(apiKey)))
        && State() == old(State()).(targetedRevisionOpen := false)
    {
      if apiKey == "" {
        lastToast := Some(ApiKeyRequiredToast);
        return None;
      }
      targetedRevisionOpen := false;
      req := Some(RevisionRequest(selectedText, text,
                                  InstructionOrDefault(targetedRevisionInstructions), apiKey));
    }

    /** On success the document becomes the splice of the revised text into the
        document as it was SENT (`sent.fullDocument`, not the current text), and the
        selection is cleared; on failure only a notification. */
    method FinishTargetedRevision(sent: RevisionRequest, outcome: Result<RevisionResponse>)
      modifies this
      ensures outcome.Ok? ==>
        State() == old(State()).(
          text := ReplaceFirst(sent.fullDocument, sent.selectedText, outcome.value.revisedText),
          selectedText := "")
      ensures outcome.Err? ==>
        State() == old(State()).(lastToast := Some(ErrorToast(outcome.message)))
    {
      match outcome
      case Ok(response) =>
        text := ReplaceFirst(sent.fullDocument, sent.selectedText, response.revisedText);
        selectedText := "";
      case Err(message) =>
        lastToast := Some(ErrorToast(message));
    }

    // ---- global edit ----

    /** The "Global Edit Highlighting" button opens the global-edit dialog. */
    method OpenGlobalEdit()
      modifies this
      ensures State() == old(State()).(globalEditOpen := true)
    {
      globalEditOpen := true;
    }

    /** Without a key: a notification, no call, and the handler leaves the dialog as it is. With one:
        the dialog closes and the whole document is sent both as the selection and as
        the full document, with the instructions (or "Rewrite"). */
    method BeginGlobalEdit() returns (req: Option<RevisionRequest>)
      modifies this
      ensures old(apiKey) == "" ==>
        req == None && State() == old(State()).(lastToast := Some(ApiKeyRequiredToast))
      ensures old(apiKey) != "" ==>
        req == Some(RevisionRequest(old(text), old(text),
                                    InstructionOrDefault(old(globalEditInstructions)), old(apiKey)))
        && State() == old(State()).(globalEditOpen := false)
    {
      if apiKey == "" {
        lastToast := Some(ApiKeyRequiredToast);
        return None;
      }
      globalEditOpen := false;
      req := Some(RevisionRequest(text, text, InstructionOrDefault(globalEditInstructions), apiKey));
    }

    /** On success the revised text replaces the whole document; on failure only a
        notification. */
    method FinishGlobalEdit(outcome: Result<RevisionResponse>)
      modifies this
      ensures outcome.Ok? ==>
        State() == old(State()).(text := outcome.value.revisedText)
      ensures outcome.Err? ==>
        State() == old(State()).(lastToast := Some(ErrorToast(outcome.message)))
    {
      match outcome
      case Ok(response) =>
        text := response.revisedText;
      case Err(message) =>
        lastToast := Some(ErrorToast(message));
    }
  }
}
