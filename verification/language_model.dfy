/** The answer of the hosted language model, as both endpoints read it. */
module LanguageModel {
  import opened Wrappers

  /** The call threw (the request was rejected, or a success body was not
      JSON), it answered with a non-success HTTP status, or it succeeded with a
      body that may lack the text of its first candidate
      (`candidates[0].content.parts[0].text`). */
  datatype ModelAnswer =
    | ModelThrew
    | ModelHttpError(status: int)
    | ModelHttpOk(candidateText: Option<string>)
}
