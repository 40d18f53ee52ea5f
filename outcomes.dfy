/**
 * Optional values, and results whose error is one of the errors the engine
 * can throw.
 */
module Outcomes {

  datatype Option<+T> = None | Some(value: T)

  /** The causes of a thrown error; `Message` gives the text a caller sees. */
  datatype Failure =
    | CallFailed(reason: string)
    | PromptsNull(key: string)
    | PromptNotFound(key: string)
    | TemplateMissing

  /** The `message` of the thrown error. */
  function Message(f: Failure): (m: string)
    ensures m != ""
  {
    match f
    case CallFailed(reason) => "LLM call failed: " + reason
    case PromptsNull(key) => "Cannot read properties of null (reading '" + key + "')"
    case PromptNotFound(key) => "Prompt template \"" + key + "\" not found"
    case TemplateMissing => "Cannot read properties of undefined (reading 'replace')"
  }

  /** `Err(f)` stands for an `Error` thrown with the message `Message(f)`. */
  datatype Result<+T> = Ok(value: T) | Err(error: Failure)
}
