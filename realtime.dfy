/**
 * The realtime client: the handshake auth record, the routing of
 * server-pushed events into the stores, and the acknowledged
 * `status-change` emit. The connection itself is not modelled; a connected
 * socket is represented by the auth record it was opened with.
 */
module Realtime {
  import opened Wrappers
  import opened Types
  import opened Quiz
  import opened QuestionResults

  /** The two roles a client may connect as. */
  datatype Role = Host | Student

  /** What the page passes to `initSocket`; both keys are optional. */
  datatype SocketAuth = SocketAuth(token: Option<string>, role: Option<Role>)

  /**
   * The handshake record `m` is the right one for `auth`: a host sends
   * exactly `{role: 'host'}`; anyone else (an absent role included) sends a
   * student record whose token is the supplied one if non-empty, else `''`.
   */
  ghost predicate HandshakeFor(auth: SocketAuth, m: map<string, string>) {
    if auth.role == Some(Host) then
      m.Keys == {"role"} && m["role"] == "host"
    else
      && m.Keys == {"token", "role"}
      && m["role"] == "student"
      && (Truthy(auth.token) ==> m["token"] == auth.token.value)
      && (!Truthy(auth.token) ==> m["token"] == "")
  }

  /** Builds the handshake auth record field by field, as `initSocket` does. */
  method BuildAuth(auth: SocketAuth) returns (socketAuth: map<string, string>)
    ensures HandshakeFor(auth, socketAuth)
  {
    socketAuth := map[];
    if auth.role == Some(Host) {
      socketAuth := socketAuth["role" := "host"];
    } else {
      socketAuth := socketAuth["token" := OrElse(auth.token, "")];
      socketAuth := socketAuth["role" := "student"];
    }
  }

  /** The payload of a `quiz-status` event, as its handler declares it (no student count). */
  datatype StatusPayload = StatusPayload(isActive: Option<bool>, round: Option<int>, remainingTime: Option<int>)

  /** The payload seen as a partial quiz status. */
  function AsPartialStatus(p: StatusPayload): QuizStatus {
    QuizStatus(p.isActive, p.round, None, p.remainingTime)
  }

  /** The events the server pushes; the first four are only logged. */
  datatype ServerEvent =
    | Connect
    | ConnectError
    | SocketError
    | Disconnect
    | QuizStatusEvent(status: StatusPayload)
    | QuestionResultEvent(result: QuestionResult)
    | HostInfoEvent(info: HostInfo)

  /** A snapshot of the two stores the events write into. */
  datatype Stores = Stores(quiz: Option<QuizStatus>, questionResult: Option<QuestionResult>)

  /**
   * The effect of one event: `quiz-status` merges into the quiz store,
   * `host-info` sets its student count, `question-result` replaces the
   * question result, and every other event leaves both stores alone.
   */
  function Route(s: Stores, e: ServerEvent): (r: Stores)
    ensures e.QuizStatusEvent? ==> r.quiz == Some(SetStatusUpdate(s.quiz, AsPartialStatus(e.status)))
    ensures e.HostInfoEvent? ==> r.quiz == Some(SetHostInfoUpdate(s.quiz, e.info))
    ensures e.QuestionResultEvent? ==> r.questionResult == Some(e.result)
    ensures !(e.QuizStatusEvent? || e.HostInfoEvent?) ==> r.quiz == s.quiz
    ensures !e.QuestionResultEvent? ==> r.questionResult == s.questionResult
  {
    match e
    case QuizStatusEvent(status) => s.(quiz := Some(SetStatusUpdate(s.quiz, AsPartialStatus(status))))
    case QuestionResultEvent(result) => s.(questionResult := Some(result))
    case HostInfoEvent(info) => s.(quiz := Some(SetHostInfoUpdate(s.quiz, info)))
    case _ => s
  }

  /** The stores after the events `evs`, delivered in order. */
  function Replay(s: Stores, evs: seq<ServerEvent>): Stores
    decreases |evs|
  {
    if evs == [] then s else Route(Replay(s, evs[..|evs| - 1]), evs[|evs| - 1])
  }

  /** The student count of the last `host-info` event in `evs`, if there is one. */
  function LastHostCount(evs: seq<ServerEvent>): Option<int>
    decreases |evs|
  {
    if evs == [] then None
    else if evs[|evs| - 1].HostInfoEvent? then Some(evs[|evs| - 1].info.numStudents)
    else LastHostCount(evs[..|evs| - 1])
  }

  /** The result of the last `question-result` event in `evs`, if there is one. */
  function LastQuestionResult(evs: seq<ServerEvent>): Option<QuestionResult>
    decreases |evs|
  {
    if evs == [] then None
    else if evs[|evs| - 1].QuestionResultEvent? then Some(evs[|evs| - 1].result)
    else LastQuestionResult(evs[..|evs| - 1])
  }

  /** The `is_active` of the last `quiz-status` event in `evs` that carries one, if there is one. */
  function LastActiveFlag(evs: seq<ServerEvent>): Option<bool>
    decreases |evs|
  {
    if evs == [] then None
    else if evs[|evs| - 1].QuizStatusEvent? && evs[|evs| - 1].status.isActive.Some? then evs[|evs| - 1].status.isActive
    else LastActiveFlag(evs[..|evs| - 1])
  }

  /** The student count a quiz store shows (none when the store is null). */
  function NumStudents(q: Option<QuizStatus>): Option<int> {
    if q.Some? then q.value.numStudents else None
  }

  /** The `is_active` flag a quiz store shows (none when the store is null). */
  function ActiveFlag(q: Option<QuizStatus>): Option<bool> {
    if q.Some? then q.value.isActive else None
  }

  /** An event that writes into the quiz store. */
  predicate UpdatesQuiz(e: ServerEvent) {
    e.QuizStatusEvent? || e.HostInfoEvent?
  }

  /**
   * The student count is owned by `host-info`: after any sequence of events
   * it is the last count a `host-info` event delivered, or the count held
   * before if no such event came.
   */
  lemma {:induction false} ReplayNumStudents(s: Stores, evs: seq<ServerEvent>)
    ensures NumStudents(Replay(s, evs).quiz)
         == if LastHostCount(evs).Some? then LastHostCount(evs) else NumStudents(s.quiz)
    decreases |evs|
  {
    if evs != [] {
      ReplayNumStudents(s, evs[..|evs| - 1]);
    }
  }

  /**
   * The question result is the last one the server pushed, or the one held
   * before if no `question-result` event came.
   */
  lemma {:induction false} ReplayQuestionResult(s: Stores, evs: seq<ServerEvent>)
    ensures Replay(s, evs).questionResult
         == if LastQuestionResult(evs).Some? then LastQuestionResult(evs) else s.questionResult
    decreases |evs|
  {
    if evs != [] {
      ReplayQuestionResult(s, evs[..|evs| - 1]);
    }
  }

  /**
   * The `is_active` flag is the last one a `quiz-status` event carried, or
   * the flag held before: events without the key never clear it.
   */
  lemma {:induction false} ReplayActiveFlag(s: Stores, evs: seq<ServerEvent>)
    ensures ActiveFlag(Replay(s, evs).quiz)
         == if LastActiveFlag(evs).Some? then LastActiveFlag(evs) else ActiveFlag(s.quiz)
    decreases |evs|
  {
    if evs != [] {
      ReplayActiveFlag(s, evs[..|evs| - 1]);
    }
  }

  /**
   * Delivering the same event twice has the effect of delivering it once, so
   * an event that reaches the stores over two live connections does no harm.
   */
  lemma RouteIdempotent(s: Stores, e: ServerEvent)
    ensures Route(Route(s, e), e) == Route(s, e)
  {
    if e.QuizStatusEvent? {
      SetStatusIdempotent(s.quiz, AsPartialStatus(e.status));
    }
  }

  /**
   * No event sets the quiz store back to null: it is non-null after a
   * sequence of events exactly when it was non-null before or one of the
   * events wrote into it.
   */
  lemma {:induction false} ReplayQuizPresent(s: Stores, evs: seq<ServerEvent>)
    ensures Replay(s, evs).quiz.Some?
        <==> s.quiz.Some? || exists i :: 0 <= i < |evs| && UpdatesQuiz(evs[i])
    decreases |evs|
  {
    if evs != [] {
      var init := evs[..|evs| - 1];
      ReplayQuizPresent(s, init);
      assert forall i :: 0 <= i < |init| ==> init[i] == evs[i];
      if UpdatesQuiz(evs[|evs| - 1]) {
      } else {
        assert (exists i :: 0 <= i < |evs| && UpdatesQuiz(evs[i]))
           ==> (exists i :: 0 <= i < |init| && UpdatesQuiz(init[i]));
      }
    }
  }

  /** The payload of `emitStatusChange`; `round` may be absent (`None`) or `null` (`Some(None)`). */
  datatype StatusChange = StatusChange(isActive: Option<bool>, round: Option<Option<int>>)

  /** The server's acknowledgement of a `status-change`. */
  datatype Ack = Ack(success: bool, error: Option<string>)

  /** How the promise returned by `emitStatusChange` settles. */
  datatype Settlement = Resolved | Rejected(message: string)

  const NotInitializedMessage := "Socket not initialized"
  const DefaultFailureMessage := "Failed to change status"

  /**
   * The acknowledgement handler: a successful ack resolves; a failed one
   * rejects with the server's error message, or with the default message
   * when the server gave none or an empty one. A rejection never carries an
   * empty message.
   */
  function AckOutcome(response: Ack): (r: Settlement)
    ensures r.Resolved? <==> response.success
    ensures r.Rejected? ==> r.message != ""
    ensures r.Rejected? && Truthy(response.error) ==> r.message == response.error.value
    ensures r.Rejected? && !Truthy(response.error) ==> r.message == DefaultFailureMessage
  {
    if response.success then Resolved else Rejected(OrElse(response.error, DefaultFailureMessage))
  }

  /** The module-level realtime state: the socket (if opened), what it emitted, and the stores it feeds. */
  class RealtimeClient {
    /**
     * The connection the module's `socket` variable points at, represented
     * by its handshake auth record; `None` before `initSocket`.
     */
    var socket: Option<map<string, string>>
    /** The `status-change` payloads emitted so far, oldest first. */
    var emitted: seq<StatusChange>
    const quiz: QuizStore
    const questionResults: QuestionResultStore

    constructor(quiz: QuizStore, questionResults: QuestionResultStore)
      ensures socket == None && emitted == []
      ensures this.quiz == quiz && this.questionResults == questionResults
    {
      socket := None;
      emitted := [];
      this.quiz := quiz;
      this.questionResults := questionResults;
    }

    /**
     * Points the module's socket at a new connection opened with the
     * handshake record for `auth`. An earlier connection is not closed.
     */
    method InitSocket(auth: SocketAuth)
      modifies this`socket
      ensures socket.Some? && HandshakeFor(auth, socket.value)
    {
      var socketAuth := BuildAuth(auth);
      socket := Some(socketAuth);
    }

    method GetSocket() returns (s: Option<map<string, string>>)
      ensures s == socket
    {
      s := socket;
    }

    /** The handler registered for `e`'s event name, applied to the stores. */
    method HandleEvent(e: ServerEvent)
      modifies quiz, questionResults
      ensures Stores(quiz.value, questionResults.value)
           == Route(Stores(old(quiz.value), old(questionResults.value)), e)
    {
      match e
      case QuizStatusEvent(status) => quiz.SetStatus(AsPartialStatus(status));
      case QuestionResultEvent(result) => questionResults.SetResult(result);
      case HostInfoEvent(info) => quiz.SetHostInfo(info);
      case _ =>
    }

    /**
     * Emits `status-change` and settles on the server's acknowledgement.
     * Without a socket it rejects at once and emits nothing.
     */
    method EmitStatusChange(status: StatusChange, ack: Ack) returns (outcome: Settlement)
      modifies this`emitted
      ensures socket.None? ==> outcome == Rejected(NotInitializedMessage) && emitted == old(emitted)
      ensures socket.Some? ==> outcome == AckOutcome(ack) && emitted == old(emitted) + [status]
    {
      if socket.None? {
        outcome := Rejected(NotInitializedMessage);
        return;
      }
      emitted := emitted + [status];
      outcome := AckOutcome(ack);
    }
  }
}
