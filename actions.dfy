/** The server action that the chatbot widget calls: it runs the
    language-model flow and folds every outcome into a tagged union. */
module Actions {

  /** What the flow produces: an object with a single `answer` field. */
  datatype ChatbotOutput = ChatbotOutput(answer: string)

  /** The outcome of awaiting the flow: it returns an output, or it throws.
      The thrown value is only logged, so its text is kept opaque. */
  datatype FlowOutcome = Returned(output: ChatbotOutput) | Threw(error: string)

  /** `{success: true, data} | {success: false, error}`. */
  datatype ChatbotResponse = Success(data: ChatbotOutput) | Failure(error: string)

  /** The one message every failure carries. */
  const UnableToAnswer: string := "Sorry, I am unable to answer at this moment. Please try again later."

  /** The try/catch of `getChatbotResponse`: total, so no exception escapes;
      success exactly when the flow returned, with its output unchanged; every
      failure is the same fixed value whatever was thrown. */
  function GetChatbotResponse(outcome: FlowOutcome): (r: ChatbotResponse)
    ensures r.Success? <==> outcome.Returned?
    ensures outcome.Returned? ==> r.data == outcome.output
    ensures r.Failure? ==> r == Failure(UnableToAnswer)
  {
    match outcome
    case Returned(output) => Success(output)
    case Threw(_) => Failure(UnableToAnswer)
  }

  /** Two failed calls cannot be told apart by the caller, whatever each threw. */
  lemma FailureHidesCause(e1: string, e2: string)
    ensures GetChatbotResponse(Threw(e1)) == GetChatbotResponse(Threw(e2))
    ensures GetChatbotResponse(Threw(e1)).error == UnableToAnswer
  {
  }
}
