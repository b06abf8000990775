/** The plain data records the realtime server pushes to the client. */
module Types {

  /** A class of the school with its score in the current ranking. */
  datatype SchoolClass = SchoolClass(name: string, score: real)

  /**
   * The outcome of one question round: the round number, the share of
   * respondents per option identifier, and the three best-performing classes.
   */
  datatype QuestionResult = QuestionResult(
    round: int,
    optionPercentages: map<string, real>,
    top3Classes: seq<SchoolClass>
  )
}
