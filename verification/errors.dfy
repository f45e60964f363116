/** Errors as the pages catch them, and `humanizeError`, which turns one into the text
    shown to the user (src/utils/humanizeError.ts). */
module Errors {
  import opened Wrappers
  import opened Strings

  /** The value bound by `catch (e)`: falsy, or an object whose `code` and `message`
      fields may be absent. */
  datatype Thrown = Falsy | Error(code: Option<string>, message: Option<string>)

  /** The machine-readable error codes of the server's error envelope. */
  datatype Code = Unauthorized | Forbidden | ValidationError | NotFound | Duplicate

  function CodeName(c: Code): string {
    match c
    case Unauthorized => "UNAUTHORIZED"
    case Forbidden => "FORBIDDEN"
    case ValidationError => "VALIDATION_ERROR"
    case NotFound => "NOT_FOUND"
    case Duplicate => "DUPLICATE"
  }

  /** The fixed sentence shown for each code. */
  function CodeSentence(c: Code): string {
    match c
    case Unauthorized => "Please login first."
    case Forbidden => "You don't have permission to do that."
    case ValidationError => "Please check your input."
    case NotFound => "Not found."
    case Duplicate => "Already exists."
  }

  /** The case of `switch (err.code)` that matches, if any. */
  function Recognise(code: Option<string>): (r: Option<Code>)
    ensures r.Some? ==> code == Some(CodeName(r.value))
    ensures r.None? ==> forall c :: code != Some(CodeName(c))
  {
    match code
    case Some("UNAUTHORIZED") => Some(Unauthorized)
    case Some("FORBIDDEN") => Some(Forbidden)
    case Some("VALIDATION_ERROR") => Some(ValidationError)
    case Some("NOT_FOUND") => Some(NotFound)
    case Some("DUPLICATE") => Some(Duplicate)
    case _ => None
  }

  /** `humanizeError(err)`: a falsy error is "Unknown error"; a recognised code gives its
      sentence whatever the message says; otherwise the message when it is non-empty,
      else "Server error.". The text is never empty. */
  function HumanizeError(e: Thrown): (r: string)
    ensures r != []
    ensures e.Falsy? ==> r == "Unknown error"
    ensures forall c :: e.Error? && e.code == Some(CodeName(c)) ==> r == CodeSentence(c)
    ensures e.Error? && (forall c :: e.code != Some(CodeName(c))) && Truthy(e.message) ==> r == e.message.value
    ensures e.Error? && (forall c :: e.code != Some(CodeName(c))) && !Truthy(e.message) ==> r == "Server error."
  {
    match e
    case Falsy => "Unknown error"
    case Error(code, message) =>
      match Recognise(code)
      case Some(c) => CodeSentence(c)
      case None => OrElse(message, "Server error.")
  }
}
