/**
 * The quiz status store: a nullable status record that realtime events
 * update by partial merge (object spread), and that the client resets to
 * null when a session ends.
 */
module Quiz {
  import opened Wrappers

  /**
   * The status of the running quiz. Every field is optional, as in the
   * client's record type: `Some(v)` means the key is present with value `v`,
   * `None` that the key is absent. The wire keys are `is_active`, `round`,
   * `num_students` and `remaining_time`.
   */
  datatype QuizStatus = QuizStatus(
    isActive: Option<bool>,
    round: Option<int>,
    numStudents: Option<int>,
    remainingTime: Option<int>
  )

  /** The payload of `setHostInfo`: the number of connected students. */
  datatype HostInfo = HostInfo(numStudents: int)

  /** The record with no key present. */
  const Empty := QuizStatus(None, None, None, None)

  /** One key of `{ ...earlier, ...later }`: the later object's key wins when present. */
  function Spread<T>(earlier: Option<T>, later: Option<T>): Option<T> {
    if later.Some? then later else earlier
  }

  /**
   * `r` is `base` with `patch` laid over it: every key present in `patch`
   * takes its value from `patch`, every key absent from `patch` keeps its
   * value in `base`.
   */
  ghost predicate Overlaid(r: QuizStatus, base: QuizStatus, patch: QuizStatus) {
    && (patch.isActive.Some? ==> r.isActive == patch.isActive)
    && (patch.isActive.None? ==> r.isActive == base.isActive)
    && (patch.round.Some? ==> r.round == patch.round)
    && (patch.round.None? ==> r.round == base.round)
    && (patch.numStudents.Some? ==> r.numStudents == patch.numStudents)
    && (patch.numStudents.None? ==> r.numStudents == base.numStudents)
    && (patch.remainingTime.Some? ==> r.remainingTime == patch.remainingTime)
    && (patch.remainingTime.None? ==> r.remainingTime == base.remainingTime)
  }

  /**
   * The update callback of `setStatus`: a null store adopts the partial
   * record as it is; otherwise the partial record is spread over the
   * current one.
   */
  function SetStatusUpdate(current: Option<QuizStatus>, status: QuizStatus): (r: QuizStatus)
    ensures current.None? ==> r == status
    ensures current.Some? ==> Overlaid(r, current.value, status)
  {
    match current
    case None => status
    case Some(c) =>
      QuizStatus(
        Spread(c.isActive, status.isActive),
        Spread(c.round, status.round),
        Spread(c.numStudents, status.numStudents),
        Spread(c.remainingTime, status.remainingTime))
  }

  /**
   * The update callback of `setHostInfo`: the student count is written, and
   * nothing else. On a null store the result holds the count alone.
   */
  function SetHostInfoUpdate(current: Option<QuizStatus>, info: HostInfo): (r: QuizStatus)
    ensures r.numStudents == Some(info.numStudents)
    ensures current.None? ==> r.isActive.None? && r.round.None? && r.remainingTime.None?
    ensures current.Some? ==>
      && r.isActive == current.value.isActive
      && r.round == current.value.round
      && r.remainingTime == current.value.remainingTime
  {
    match current
    case None => Empty.(numStudents := Some(info.numStudents))
    case Some(c) => c.(numStudents := Some(info.numStudents))
  }

  /** Applying the same partial status twice has the effect of applying it once. */
  lemma SetStatusIdempotent(current: Option<QuizStatus>, status: QuizStatus)
    ensures SetStatusUpdate(Some(SetStatusUpdate(current, status)), status) == SetStatusUpdate(current, status)
  {
  }

  /**
   * Two successive partial updates equal one update by the second partial
   * record laid over the first.
   */
  lemma SetStatusComposes(current: Option<QuizStatus>, first: QuizStatus, second: QuizStatus)
    ensures SetStatusUpdate(Some(SetStatusUpdate(current, first)), second)
         == SetStatusUpdate(current, SetStatusUpdate(Some(first), second))
  {
  }

  /** `setHostInfo` behaves as `setStatus` with a record carrying only the student count. */
  lemma SetHostInfoIsSetStatus(current: Option<QuizStatus>, info: HostInfo)
    ensures SetHostInfoUpdate(current, info) == SetStatusUpdate(current, Empty.(numStudents := Some(info.numStudents)))
  {
  }

  /** The store: a mutable cell holding a status record or null. */
  class QuizStore {
    var value: Option<QuizStatus>

    /** The store starts as null. */
    constructor()
      ensures value == None
    {
      value := None;
    }

    method SetStatus(status: QuizStatus)
      modifies this
      ensures value == Some(SetStatusUpdate(old(value), status))
    {
      value := Some(SetStatusUpdate(value, status));
    }

    method SetHostInfo(info: HostInfo)
      modifies this
      ensures value == Some(SetHostInfoUpdate(old(value), info))
    {
      value := Some(SetHostInfoUpdate(value, info));
    }

    /** Back to null, whatever the store held. */
    method Reset()
      modifies this
      ensures value == None
    {
      value := None;
    }
  }

  /** After a reset, `setStatus` behaves as on a fresh store: the value is exactly the partial record. */
  method ResetThenSetStatus(store: QuizStore, status: QuizStatus)
    modifies store
    ensures store.value == Some(status)
  {
    store.Reset();
    store.SetStatus(status);
  }
}
