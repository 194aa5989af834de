/**
  The fallback of getSummary. The HTTP call itself is outside the model; what
  is modelled is the decision taken on its response.
*/
module Summarizer {
  import opened Wrappers

  /**
    What getSummary looks at in the summarization service's response: whether
    the status was successful, and the value at [0]['summary_text'] of the
    decoded body (None when that path is missing or null).
  */
  datatype SummaryResponse = SummaryResponse(successful: bool, summaryText: Option<string>)

  const ErrorSentinel := "Error generating summary"
  const MissingSentinel := "Summary not available"

  /** The summary stored for a response. */
  function SummaryOf(response: SummaryResponse): (s: string)
    ensures !response.successful ==> s == ErrorSentinel
    ensures response.successful && response.summaryText == None ==> s == MissingSentinel
    ensures response.successful && response.summaryText.Some? ==> s == response.summaryText.value
  {
    if response.successful then response.summaryText.GetOr(MissingSentinel) else ErrorSentinel
  }

  /**
    Unless the service itself returns one of the two sentinel texts, the stored
    summary tells the three outcomes apart.
  */
  lemma SummaryDistinguishesOutcomes(response: SummaryResponse)
    requires response.summaryText != Some(ErrorSentinel) && response.summaryText != Some(MissingSentinel)
    ensures SummaryOf(response) == ErrorSentinel <==> !response.successful
    ensures SummaryOf(response) == MissingSentinel <==> response.successful && response.summaryText == None
  {
  }

  /** The stored summary is empty only when the service successfully returned an empty text. */
  lemma SummaryEmptyOnlyFromService(response: SummaryResponse)
    ensures SummaryOf(response) == "" <==> response.successful && response.summaryText == Some("")
  {
  }
}
