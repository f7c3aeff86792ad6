/** The client's error type and the mapping of prompt errors (cli_handler/error.rs). */
module CliError {

  /** The errors of the `inquire` prompt library; payloads are kept as messages. */
  datatype InquireError =
    | NotTTY
    | InvalidConfiguration(detail: string)
    | IO(detail: string)
    | OperationCanceled
    | OperationInterrupted
    | Custom(detail: string)

  datatype Error =
    | Interrupted
    | InquiryError(inquire: InquireError)
    | CommandNotOption(command: string)
    | FileHandlerError(detail: string)
    | LLMError(detail: string)

  /** `map_inquire_error`: the user cancelling or interrupting the prompt is an
      interruption; any other prompt error is wrapped as it is. */
  function MapInquireError(err: InquireError): (e: Error)
    ensures e == Interrupted <==> err == OperationInterrupted || err == OperationCanceled
    ensures e != Interrupted ==> e == InquiryError(err)
  {
    match err
    case OperationInterrupted => Interrupted
    case OperationCanceled => Interrupted
    case _ => InquiryError(err)
  }

  /** The mapping only ever yields the two prompt-related variants, and it loses
      no information except which of the two user actions interrupted. */
  lemma MapInquireErrorRange(a: InquireError, b: InquireError)
    ensures MapInquireError(a).Interrupted? || MapInquireError(a).InquiryError?
    ensures !MapInquireError(a).CommandNotOption? && !MapInquireError(a).FileHandlerError?
    ensures !MapInquireError(a).LLMError?
    ensures MapInquireError(a) == MapInquireError(b) && !MapInquireError(a).Interrupted? ==> a == b
  {
  }
}
