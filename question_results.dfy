/** The latest question result: a nullable cell replaced as a whole. */
module QuestionResults {
  import opened Wrappers
  import opened Types

  class QuestionResultStore {
    var value: Option<QuestionResult>

    /** The store starts as null. */
    constructor()
      ensures value == None
    {
      value := None;
    }

    /** The new result replaces the old one entirely; nothing of the previous result survives. */
    method SetResult(result: QuestionResult)
      modifies this
      ensures value == Some(result)
    {
      value := Some(result);
    }

    /** Back to null, whatever the store held. */
    method Reset()
      modifies this
      ensures value == None
    {
      value := None;
    }
  }

  /** Last write wins: two results in a row leave only the second. */
  method LastResultWins(store: QuestionResultStore, first: QuestionResult, second: QuestionResult)
    modifies store
    ensures store.value == Some(second)
  {
    store.SetResult(first);
    store.SetResult(second);
  }
}
