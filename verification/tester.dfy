/** The command driver of `EAnpTester`: a FIFO queue of command messages that
    is fed to a channel one query at a time, advancing on each successful
    completion and stopping on a transport error or a `Failure` result.

    The channel, query and broker objects belong to kwmlib, which is not part
    of this model; what the driver learns from them is passed in as plain
    values: whether a channel is open, whether `SendCmd` returned a query or
    null, how a query completed, and whether an incoming query is pending. */
module Tester {
  import opened Anp

  /** Identity of an `EAnpChannel` object. */
  type ChannelId = nat

  /** The numeric values of `EAnpRes.OK` and `EAnpRes.Failure`, which kwmlib
      defines. */
  datatype Codes = Codes(ok: U32, failure: U32)

  /** What the driver logs through `Tell`, as abstract tags. */
  datatype Report =
    | ChannelOpened
    | AllCommandsExecuted
    | RunningCommand(cmdType: U32)
    | CommandFailed(reason: string)
    | CommandCompleted(resType: U32)
    | FailureDetails(info: FailureInfo)
    | HandlerException
    | IncomingQueryReceived

  /** One call of `SendCmd`: the channel, the command handed to it, and
      whether it returned a query (true) or null (false). */
  datatype Attempt = Attempt(channel: ChannelId, cmd: Msg, accepted: bool)

  /** How an outgoing query completed: `q.Ex` set, or a result message `q.Res`. */
  datatype Outcome = TransportError(reason: string) | Result(res: Msg)

  /** The driver's state.
      queue      - `CmdQueue`, head first;
      attempts   - every `SendCmd` call, oldest first;
      inFlight   - one occurrence per outgoing query whose completion handler
                   is attached and has not yet fired, by channel;
      subscribed - channels whose incoming-query, event and close
                   notifications the driver subscribed to;
      replies    - every reply sent to an incoming query, oldest first;
      reports    - every `Tell`, oldest first. */
  datatype Driver = Driver(
    codes: Codes,
    queue: seq<Msg>,
    attempts: seq<Attempt>,
    inFlight: multiset<ChannelId>,
    subscribed: set<ChannelId>,
    replies: seq<Msg>,
    reports: seq<Report>)

  /** A freshly constructed tester: nothing queued, sent or logged. */
  function Init(codes: Codes): (s: Driver)
    ensures s.codes == codes
    ensures s.queue == [] && s.attempts == [] && s.replies == [] && s.reports == []
    ensures |s.inFlight| == 0 && s.subscribed == {}
  {
    Driver(codes, [], [], multiset{}, {}, [], [])
  }

  /** `QueueCmd(type)`: a new message of that type with no elements, appended
      at the tail of the queue and returned to the caller. */
  function QueueCmd(s: Driver, t: U32): (r: (Driver, Msg))
    ensures r.1.msgType == t && r.1.elements == []
    ensures |r.0.queue| == |s.queue| + 1
    ensures r.0.queue[..|s.queue|] == s.queue && r.0.queue[|s.queue|] == r.1
    ensures r.0 == s.(queue := r.0.queue)
  {
    var cmd := Msg(t, []);
    (s.(queue := s.queue + [cmd]), cmd)
  }

  /** The caller's `Add*` calls on the message `QueueCmd` just returned: it is
      still the tail of the queue, and it receives the elements in order. */
  function AddToLast(s: Driver, payload: seq<Element>): (r: Driver)
    requires |s.queue| > 0
    ensures |r.queue| == |s.queue|
    ensures r.queue[..|s.queue| - 1] == s.queue[..|s.queue| - 1]
    ensures r.queue[|s.queue| - 1].msgType == s.queue[|s.queue| - 1].msgType
    ensures r.queue[|s.queue| - 1].elements == s.queue[|s.queue| - 1].elements + payload
    ensures r == s.(queue := r.queue)
  {
    var n := |s.queue| - 1;
    s.(queue := s.queue[..n] + [AddElements(s.queue[n], payload)])
  }

  /** `ExecNextCmd(c)`: on an empty queue, report that all commands ran and do
      nothing else; otherwise dequeue the head and hand it to `SendCmd` on
      `c`. `accepted` is whether `SendCmd` returned a query; only then is a
      completion handler attached. A refused command is dropped. */
  function ExecNextCmd(s: Driver, c: ChannelId, accepted: bool): (r: Driver)
    ensures r.codes == s.codes && r.subscribed == s.subscribed && r.replies == s.replies
    ensures |s.queue| == 0 ==>
      && r.queue == []
      && r.attempts == s.attempts
      && r.inFlight == s.inFlight
      && r.reports == s.reports + [AllCommandsExecuted]
    ensures |s.queue| > 0 ==>
      && r.queue == s.queue[1..]
      && r.attempts == s.attempts + [Attempt(c, s.queue[0], accepted)]
      && r.inFlight == (if accepted then s.inFlight + multiset{c} else s.inFlight)
      && r.reports == s.reports + [RunningCommand(s.queue[0].msgType)]
  {
    if |s.queue| == 0 then
      s.(reports := s.reports + [AllCommandsExecuted])
    else
      var cmd := s.queue[0];
      var s' := s.(queue := s.queue[1..],
                   attempts := s.attempts + [Attempt(c, cmd, accepted)],
                   reports := s.reports + [RunningCommand(cmd.msgType)]);
      if accepted then s'.(inFlight := s.inFlight + multiset{c}) else s'
  }

  /** `HandleChannelOpen`: always logs; on a channel that is no longer open
      does nothing more; on an open one subscribes to its notifications and
      runs exactly one `ExecNextCmd` on it. */
  function HandleChannelOpen(s: Driver, c: ChannelId, isOpen: bool, accepted: bool): (r: Driver)
    ensures |r.reports| > |s.reports| && r.reports[|s.reports|] == ChannelOpened
    ensures !isOpen ==> r == s.(reports := s.reports + [ChannelOpened])
    ensures isOpen ==> r.subscribed == s.subscribed + {c}
    ensures isOpen ==>
      r == ExecNextCmd(s.(subscribed := s.subscribed + {c},
                          reports := s.reports + [ChannelOpened]), c, accepted)
  {
    var s' := s.(reports := s.reports + [ChannelOpened]);
    if !isOpen then s'
    else ExecNextCmd(s'.(subscribed := s.subscribed + {c}), c, accepted)
  }

  /** Whether a completion lets the driver advance: only a result whose type
      is not `Failure`. */
  predicate Advances(codes: Codes, o: Outcome)
  {
    o.Result? && o.res.msgType != codes.failure
  }

  /** `HandleOutcomingCompletion` for a query sent on channel `c`: the query is
      no longer in flight. A transport error is reported and stops dispatch.
      A result is reported by type; a `Failure` result also has its kind and
      message reported (or, when that payload cannot be read, the exception
      is logged) and stops dispatch; any other result runs exactly one
      `ExecNextCmd` on the same channel, where `accepted` is what `SendCmd`
      returns there. */
  function HandleOutcomingCompletion(s: Driver, c: ChannelId, o: Outcome, accepted: bool): (r: Driver)
    ensures r.codes == s.codes && r.subscribed == s.subscribed && r.replies == s.replies
    ensures o.TransportError? ==>
      r == s.(inFlight := s.inFlight - multiset{c},
              reports := s.reports + [CommandFailed(o.reason)])
    ensures o.Result? && o.res.msgType == s.codes.failure ==>
      && r.queue == s.queue
      && r.attempts == s.attempts
      && r.inFlight == s.inFlight - multiset{c}
      && r.reports == s.reports + [CommandCompleted(o.res.msgType),
                                   match FailurePayload(o.res)
                                   case Some(info) => FailureDetails(info)
                                   case None => HandlerException]
    ensures Advances(s.codes, o) ==>
      r == ExecNextCmd(s.(inFlight := s.inFlight - multiset{c},
                          reports := s.reports + [CommandCompleted(o.res.msgType)]), c, accepted)
  {
    var s' := s.(inFlight := s.inFlight - multiset{c});
    match o
    case TransportError(reason) =>
      s'.(reports := s.reports + [CommandFailed(reason)])
    case Result(res) =>
      var s'' := s'.(reports := s.reports + [CommandCompleted(res.msgType)]);
      if res.msgType == s.codes.failure then
        match FailurePayload(res)
        case Some(info) => s''.(reports := s''.reports + [FailureDetails(info)])
        case None => s''.(reports := s''.reports + [HandlerException])
      else
        ExecNextCmd(s'', c, accepted)
  }

  /** `HandleIncomingQuery`: always logs; replies with an `OK` message without
      elements exactly when the query is still pending. */
  function HandleIncomingQuery(s: Driver, isPending: bool): (r: Driver)
    ensures r == s.(replies := r.replies, reports := r.reports)
    ensures r.reports == s.reports + [IncomingQueryReceived]
    ensures !isPending ==> r.replies == s.replies
    ensures isPending ==>
      && |r.replies| == |s.replies| + 1
      && r.replies[..|s.replies|] == s.replies
      && r.replies[|s.replies|].msgType == s.codes.ok
      && r.replies[|s.replies|].elements == []
  {
    var s' := s.(reports := s.reports + [IncomingQueryReceived]);
    if !isPending then s'
    else s'.(replies := s.replies + [Msg(s.codes.ok, [])])
  }
}
