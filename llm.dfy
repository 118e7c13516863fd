/**
 * `WebSearchLLMAssistant.queryContext` (backend/src/llm.ts): the string rules
 * around one chat-model completion. A context that is empty or too short gets a
 * fixed sentinel answer without calling the model; an answer that admits a lack
 * of information is prefixed with "Not enough context , ".
 */
module Llm {
  import opened Wrappers
  import opened Text

  /** What one completion of the chat model gives: its text, or a failure
      (network, quota, timeout) that `queryContext` lets propagate. */
  datatype ModelReply = Completion(text: string) | InferenceFailed(message: string)

  const MIN_CONTEXT_LENGTH := 100

  /** How both the sentinel and the low-confidence prefix begin. */
  const INSUFFICIENCY_MARK := "Not enough context"

  const SENTINEL := INSUFFICIENCY_MARK + " I cannot provide a comprehensive answer based on the available information. Additional research or sources would be needed to address this query effectively."

  const LOW_CONFIDENCE_PREFIX := INSUFFICIENCY_MARK + " , "

  const LOW_CONFIDENCE_INDICATORS := ["i cannot provide", "there is not enough", "insufficient information", "cannot find", "no information"]

  /** The guard: `!context || context.trim().length < 100`. */
  predicate IsTooShort(context: string)
  {
    context == "" || |Trim(context)| < MIN_CONTEXT_LENGTH
  }

  /** Some indicator occurs in the lower-cased answer. */
  predicate IsLowConfidence(response: string)
  {
    ContainsAny(Lower(response), LOW_CONFIDENCE_INDICATORS)
  }

  /** The post-processing of a completion. It never removes text: the
      completion is always a suffix of the result, which is the completion
      itself exactly when no indicator occurs in it. */
  function Qualify(response: string): (r: string)
    ensures EndsWith(r, response)
    ensures r == response <==> !IsLowConfidence(response)
    ensures r != response ==> r == LOW_CONFIDENCE_PREFIX + response
  {
    if IsLowConfidence(response) then LOW_CONFIDENCE_PREFIX + response else response
  }

  /** What `queryContext(context, question)` resolves to, or the failure it
      propagates; `model` stands for the prompt-and-invoke chain. */
  function QueryContext(context: string, question: string,
                        model: (string, string) -> ModelReply): (r: Result<string, string>)
    ensures IsTooShort(context) ==> r == Success(SENTINEL)
    ensures !IsTooShort(context) ==> (r.Success? <==> model(context, question).Completion?)
    ensures !IsTooShort(context) && r.Success? ==> EndsWith(r.value, model(context, question).text)
  {
    if IsTooShort(context) then Success(SENTINEL)
    else
      match model(context, question)
      case InferenceFailed(message) => Failure(message)
      case Completion(response) => Success(Qualify(response))
  }
}
