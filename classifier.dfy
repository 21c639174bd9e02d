/**
 * The email classifier as the handlers see it: a call to an outside language model that either
 * fails or answers within its output schema, so the category is always one of the taxonomy.
 */
module EmailClassifier {
  import opened Wrappers
  import opened Categories

  /** The classifier's input; only the push webhook passes a `body`. */
  datatype EmailInput = EmailInput(subject: string, sender: string, snippet: string, body: Option<string>)

  datatype Classification = Classification(category: Category, reasoning: string, isUrgent: bool)

  /** One call of the classifier: its answer, or the message of the error it throws. */
  type Classifier = EmailInput -> Result<Classification, string>
}
