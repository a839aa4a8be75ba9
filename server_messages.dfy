/** The fixed messages of the activity endpoint. */
module ServerMessages {
  /** The message the 45-second timer rejects with. */
  const TimeoutMessage: string := "Claude API request timed out after 45 seconds"

  /** The message of the `TypeError` that `trim` on a non-string state
      throws. */
  const StateNotTextMessage: string := "stateInput.trim is not a function"

  /** The message of the `TypeError` thrown when the extracted text is not a
      string. */
  const TextNotStringMessage: string := "responseText.substring is not a function"

  /** The timeout message has no underscore, and so cannot mention
      `rate_limit_error`. */
  lemma NoUnderscoreInTimeout()
    ensures '_' !in TimeoutMessage
  {
    var a, b, c := "Claude API ", "request timed ", "out after 45 seconds";
    assert TimeoutMessage == a + b + c;
    assert '_' !in a by {}
    assert '_' !in b by {}
    assert '_' !in c by {}
  }
}
