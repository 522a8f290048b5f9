/** The records exchanged with the three language-model flows the editor calls. The flows
    themselves run outside the editor; their outcomes reach the model as parameters. */
module Flows {

  import opened Wrappers

  /** Input of `textContinuation`. */
  datatype ContinuationRequest = ContinuationRequest(existingText: string, savedContext: string, apiKey: string)

  /** Output of `textContinuation`. */
  datatype ContinuationResponse = ContinuationResponse(continuedText: string)

  /** Input of `contextualSuggestions`. */
  datatype SuggestionRequest = SuggestionRequest(request: string, context: string, apiKey: string)

  /** One entry of the `contextualSuggestions` output. */
  datatype Suggestion = Suggestion(suggestion: string, reasoning: string)

  /** Output of `contextualSuggestions`. */
  datatype SuggestionResponse = SuggestionResponse(suggestions: seq<Suggestion>)

  /** Input of `targetedRevisions`, used by both targeted revision and global edit. */
  datatype RevisionRequest = RevisionRequest(selectedText: string, fullDocument: string, revisionRequest: string, apiKey: string)

  /** Output of `targetedRevisions`; `explanation` is optional in the output schema. */
  datatype RevisionResponse = RevisionResponse(revisedText: string, explanation: Option<string>)
}
