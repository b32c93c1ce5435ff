/** Runs of the command driver: the events that reach `EAnpTester`, one
    transition per event, and properties of whole event sequences. All
    notifications are delivered one at a time on the UI thread, so a run is a
    plain sequence of events. */
module Runs {
  import opened Anp
  import opened Tester

  /** One delivered event. `accepted` is what `SendCmd` returns if the handler
      calls it. `Enqueue` is `QueueCmd(cmdType)` followed by the caller's
      `Add*` calls on the returned message. */
  datatype Event =
    | Enqueue(cmdType: U32, payload: seq<Element>)
    | ChannelOpen(channel: ChannelId, isOpen: bool, accepted: bool)
    | Completion(channel: ChannelId, outcome: Outcome, accepted: bool)
    | IncomingQuery(isPending: bool)

  function Step(s: Driver, e: Event): (r: Driver)
    ensures r.codes == s.codes
  {
    match e
    case Enqueue(t, payload) => AddToLast(QueueCmd(s, t).0, payload)
    case ChannelOpen(c, isOpen, accepted) => HandleChannelOpen(s, c, isOpen, accepted)
    case Completion(c, o, accepted) => HandleOutcomingCompletion(s, c, o, accepted)
    case IncomingQuery(isPending) => HandleIncomingQuery(s, isPending)
  }

  function Run(s: Driver, es: seq<Event>): (r: Driver)
    ensures r.codes == s.codes
    decreases |es|
  {
    if |es| == 0 then s else Run(Step(s, es[0]), es[1..])
  }

  /** What kwmlib guarantees about the events it delivers: a channel is
      announced open once, so never after the driver subscribed to it, and a
      completion only fires for a query whose handler is attached. */
  ghost predicate Enabled(s: Driver, e: Event)
  {
    match e
    case ChannelOpen(c, _, _) => c !in s.subscribed
    case Completion(c, _, _) => c in s.inFlight
    case _ => true
  }

  ghost predicate WellFormed(s: Driver, es: seq<Event>)
    decreases |es|
  {
    |es| == 0 || (Enabled(s, es[0]) && WellFormed(Step(s, es[0]), es[1..]))
  }

  /** The driver never has two queries in flight on one channel, and only
      sends on channels it subscribed to. */
  ghost predicate Serial(s: Driver)
  {
    forall c :: s.inFlight[c] <= 1 && (s.inFlight[c] > 0 ==> c in s.subscribed)
  }

  /** The commands handed to `SendCmd`, in call order. */
  function Commands(log: seq<Attempt>): (cs: seq<Msg>)
    ensures |cs| == |log|
    ensures forall i :: 0 <= i < |log| ==> cs[i] == log[i].cmd
  {
    seq(|log|, i requires 0 <= i < |log| => log[i].cmd)
  }

  /** The command an event enqueues, if any. */
  function EnqueuedBy(e: Event): seq<Msg>
  {
    if e.Enqueue? then [Msg(e.cmdType, e.payload)] else []
  }

  /** The commands a sequence of events enqueues, in order. */
  function Enqueued(es: seq<Event>): seq<Msg>
    decreases |es|
  {
    if |es| == 0 then [] else EnqueuedBy(es[0]) + Enqueued(es[1..])
  }

  /** The commands handed to `SendCmd` followed by those still queued. */
  function Log(s: Driver): seq<Msg>
  {
    Commands(s.attempts) + s.queue
  }

  /** How many `ExecNextCmd` calls a sequence of events triggers: one per
      open channel announced, one per completion that advances. */
  function Triggers(codes: Codes, es: seq<Event>): nat
    decreases |es|
  {
    if |es| == 0 then 0
    else
      var t := match es[0]
        case ChannelOpen(_, isOpen, _) => if isOpen then 1 else 0
        case Completion(_, o, _) => if Advances(codes, o) then 1 else 0
        case _ => 0;
      t + Triggers(codes, es[1..])
  }

  /** An `Enqueue` event appends exactly the message it describes at the tail
      of the queue and changes nothing else. */
  lemma EnqueueAppends(s: Driver, t: U32, payload: seq<Element>)
    ensures Step(s, Enqueue(t, payload)) == s.(queue := s.queue + [Msg(t, payload)])
  {
    var r := Step(s, Enqueue(t, payload));
    var n := |s.queue|;
    assert r.queue[n] == Msg(t, payload);
    assert r.queue == r.queue[..n] + [r.queue[n]];
  }

  /** `ExecNextCmd` moves the head of the queue, if any, to the sent log. */
  lemma ExecKeepsOrder(s: Driver, c: ChannelId, accepted: bool)
    ensures Log(ExecNextCmd(s, c, accepted)) == Log(s)
  {
  }

  /** Each event either keeps the sent log or hands exactly the head of the
      queue to `SendCmd` and removes it, so sent commands followed by queued
      ones only ever grow by the newly enqueued command. */
  lemma StepKeepsOrder(s: Driver, e: Event)
    ensures Log(Step(s, e)) == Log(s) + EnqueuedBy(e)
  {
    match e {
      case Enqueue(t, payload) =>
        EnqueueAppends(s, t, payload);
      case ChannelOpen(c, isOpen, accepted) =>
        if isOpen {
          ExecKeepsOrder(s.(subscribed := s.subscribed + {c},
                            reports := s.reports + [ChannelOpened]), c, accepted);
        }
      case Completion(c, o, accepted) =>
        if Advances(s.codes, o) {
          ExecKeepsOrder(s.(inFlight := s.inFlight - multiset{c},
                            reports := s.reports + [CommandCompleted(o.res.msgType)]), c, accepted);
        }
      case IncomingQuery(_) =>
    }
  }

  /** Commands are sent in enqueue order, none is sent twice and none is
      skipped: what was sent, followed by what is still queued, is exactly
      what was enqueued. */
  lemma {:induction false} RunKeepsOrder(s: Driver, es: seq<Event>)
    ensures Log(Run(s, es)) == Log(s) + Enqueued(es)
    decreases |es|
  {
    if |es| > 0 {
      var s' := Step(s, es[0]);
      StepKeepsOrder(s, es[0]);
      RunKeepsOrder(s', es[1..]);
      Chain(Log(s), Log(s'), Log(Run(s, es)), EnqueuedBy(es[0]), Enqueued(es[1..]));
    }
  }

  /** Growing by `a` and then by `b` is growing by `a + b`. */
  lemma Chain<T>(x: seq<T>, y: seq<T>, z: seq<T>, a: seq<T>, b: seq<T>)
    requires y == x + a && z == y + b
    ensures z == x + (a + b)
  {
  }

  /** From a fresh tester, the `SendCmd` calls are a prefix of the enqueued
      commands. */
  lemma SendsFollowEnqueueOrder(codes: Codes, es: seq<Event>)
    ensures Commands(Run(Init(codes), es).attempts) <= Enqueued(es)
  {
    var r := Run(Init(codes), es);
    RunKeepsOrder(Init(codes), es);
    PrefixOfConcat(Commands(r.attempts), r.queue, Enqueued(es));
  }

  lemma PrefixOfConcat<T>(a: seq<T>, b: seq<T>, c: seq<T>)
    requires a + b == c
    ensures a <= c
  {
  }

  /** The reports an event adds after the earlier ones. */
  function NewReports(s: Driver, r: Driver): seq<Report>
    requires |s.reports| <= |r.reports|
  {
    r.reports[|s.reports|..]
  }

  /** After one earlier report, `ExecNextCmd` reports "all commands executed"
      exactly when the queue is empty. */
  lemma ExecReportsDrained(s: Driver, c: ChannelId, accepted: bool, pre: Report)
    requires pre != AllCommandsExecuted
    ensures var r := ExecNextCmd(s.(reports := s.reports + [pre]), c, accepted);
      && |r.reports| == |s.reports| + 2
      && r.reports[..|s.reports|] == s.reports
      && (AllCommandsExecuted in NewReports(s, r) <==> |s.queue| == 0)
  {
    var r := ExecNextCmd(s.(reports := s.reports + [pre]), c, accepted);
    if |s.queue| == 0 {
      assert NewReports(s, r) == [pre, AllCommandsExecuted];
    } else {
      assert NewReports(s, r) == [pre, RunningCommand(s.queue[0].msgType)];
    }
  }

  /** `HandleChannelOpen` reports "all commands executed" exactly when the
      channel is open and the queue is empty. */
  lemma OpenReportsDrained(s: Driver, c: ChannelId, isOpen: bool, accepted: bool)
    ensures var r := HandleChannelOpen(s, c, isOpen, accepted);
      && |s.reports| <= |r.reports| && r.reports[..|s.reports|] == s.reports
      && (AllCommandsExecuted in NewReports(s, r) <==> isOpen && |s.queue| == 0)
  {
    var r := HandleChannelOpen(s, c, isOpen, accepted);
    if isOpen {
      ExecReportsDrained(s.(subscribed := s.subscribed + {c}), c, accepted, ChannelOpened);
    } else {
      assert NewReports(s, r) == [ChannelOpened];
    }
  }

  /** A completion reports "all commands executed" exactly when it advances
      and the queue is empty. */
  lemma CompletionReportsDrained(s: Driver, c: ChannelId, o: Outcome, accepted: bool)
    ensures var r := HandleOutcomingCompletion(s, c, o, accepted);
      && |s.reports| <= |r.reports| && r.reports[..|s.reports|] == s.reports
      && (AllCommandsExecuted in NewReports(s, r) <==> Advances(s.codes, o) && |s.queue| == 0)
  {
    var r := HandleOutcomingCompletion(s, c, o, accepted);
    if Advances(s.codes, o) {
      ExecReportsDrained(s.(inFlight := s.inFlight - multiset{c}), c, accepted,
                         CommandCompleted(o.res.msgType));
    } else if o.Result? {
      assert |NewReports(s, r)| == 2 && NewReports(s, r)[0] == CommandCompleted(o.res.msgType);
      assert NewReports(s, r)[1] != AllCommandsExecuted;
    } else {
      assert NewReports(s, r) == [CommandFailed(o.reason)];
    }
  }

  /** "All commands executed" is reported by an event exactly when the event
      runs `ExecNextCmd` on an empty queue; earlier reports are kept. */
  lemma DrainedReportedOnlyWhenEmpty(s: Driver, e: Event)
    ensures |s.reports| <= |Step(s, e).reports|
    ensures Step(s, e).reports[..|s.reports|] == s.reports
    ensures AllCommandsExecuted in NewReports(s, Step(s, e))
        <==> |s.queue| == 0 && Triggers(s.codes, [e]) == 1
  {
    assert [e][1..] == [];
    var r := Step(s, e);
    match e {
      case Enqueue(t, payload) =>
        EnqueueAppends(s, t, payload);
      case ChannelOpen(c, isOpen, accepted) =>
        OpenReportsDrained(s, c, isOpen, accepted);
      case Completion(c, o, accepted) =>
        CompletionReportsDrained(s, c, o, accepted);
      case IncomingQuery(_) =>
        assert NewReports(s, r) == [IncomingQueryReceived];
    }
  }

  /** One event sends at most once, and only if it triggers `ExecNextCmd`. */
  lemma StepSendsAtMostOnce(s: Driver, e: Event)
    ensures |s.attempts| <= |Step(s, e).attempts| <= |s.attempts| + Triggers(s.codes, [e])
  {
  }

  /** Over any run, the number of `SendCmd` calls is bounded by the number
      of open channels announced plus the number of completions that
      advance. */
  lemma {:induction false} RunSendBound(s: Driver, es: seq<Event>)
    ensures |s.attempts| <= |Run(s, es).attempts| <= |s.attempts| + Triggers(s.codes, es)
    decreases |es|
  {
    if |es| > 0 {
      StepSendsAtMostOnce(s, es[0]);
      RunSendBound(Step(s, es[0]), es[1..]);
      assert Triggers(s.codes, es) == Triggers(s.codes, [es[0]]) + Triggers(s.codes, es[1..]);
    }
  }

  /** One delivered event keeps the driver serial. */
  lemma StepKeepsSerial(s: Driver, e: Event)
    requires Serial(s) && Enabled(s, e)
    ensures Serial(Step(s, e))
  {
  }

  /** Under kwmlib's delivery guarantees the driver is strictly serial: at
      every point of a run, at most one query is in flight per channel. */
  lemma {:induction false} RunKeepsSerial(s: Driver, es: seq<Event>)
    requires Serial(s) && WellFormed(s, es)
    ensures Serial(Run(s, es))
    decreases |es|
  {
    if |es| > 0 {
      StepKeepsSerial(s, es[0]);
      RunKeepsSerial(Step(s, es[0]), es[1..]);
    }
  }

  /** From a fresh tester, no channel ever has two queries in flight. */
  lemma AtMostOneInFlight(codes: Codes, es: seq<Event>, c: ChannelId)
    requires WellFormed(Init(codes), es)
    ensures Run(Init(codes), es).inFlight[c] <= 1
  {
    RunKeepsSerial(Init(codes), es);
  }

  /** Once nothing is in flight, the driver sends nothing more until a
      channel is announced open: completions cannot arrive, and enqueued
      commands and incoming queries never trigger a send. */
  lemma {:induction false} IdleStaysIdle(s: Driver, es: seq<Event>)
    requires |s.inFlight| == 0 && WellFormed(s, es)
    requires forall i :: 0 <= i < |es| ==> !(es[i].ChannelOpen? && es[i].isOpen)
    ensures Run(s, es).attempts == s.attempts
    ensures |Run(s, es).inFlight| == 0
    decreases |es|
  {
    if |es| > 0 {
      var s' := Step(s, es[0]);
      match es[0] {
        case Completion(c, _, _) =>
          assert false;
        case Enqueue(_, _) =>
        case IncomingQuery(_) =>
        case ChannelOpen(_, _, _) =>
          assert !es[0].isOpen;
      }
      IdleStaysIdle(s', es[1..]);
    }
  }

  /** Fail-fast: a transport error or a `Failure` result on the only query in
      flight ends dispatch. Nothing is sent, the queue is left as it was, and
      nothing is in flight afterwards, so by `IdleStaysIdle` no later event
      short of a new channel being announced open sends another command. */
  lemma StopIsFinal(s: Driver, c: ChannelId, o: Outcome, accepted: bool)
    requires s.inFlight == multiset{c}
    requires !Advances(s.codes, o)
    ensures Step(s, Completion(c, o, accepted)).queue == s.queue
    ensures Step(s, Completion(c, o, accepted)).attempts == s.attempts
    ensures |Step(s, Completion(c, o, accepted)).inFlight| == 0
  {
  }

  /** A command that `SendCmd` refuses is dropped: it leaves the queue, is not
      put back and gets no completion handler. When it was sent after the
      only query on the way completed, nothing is in flight afterwards, so by
      `IdleStaysIdle` no later event short of a new channel being announced
      open sends anything. */
  lemma RefusedIsDropped(s: Driver, c: ChannelId, res: Msg)
    requires s.inFlight == multiset{c} && |s.queue| > 0
    requires res.msgType != s.codes.failure
    ensures Step(s, Completion(c, Result(res), false)).queue == s.queue[1..]
    ensures Step(s, Completion(c, Result(res), false)).attempts
         == s.attempts + [Attempt(c, s.queue[0], false)]
    ensures |Step(s, Completion(c, Result(res), false)).inFlight| == 0
  {
  }

  /** Fail-fast over a run: after a transport error or a `Failure` result on
      the only query in flight, no later event sends a command until a new
      channel is announced open. */
  lemma StopThenIdle(s: Driver, c: ChannelId, o: Outcome, accepted: bool, es: seq<Event>)
    requires s.inFlight == multiset{c}
    requires !Advances(s.codes, o)
    requires WellFormed(Step(s, Completion(c, o, accepted)), es)
    requires forall i :: 0 <= i < |es| ==> !(es[i].ChannelOpen? && es[i].isOpen)
    ensures Run(s, [Completion(c, o, accepted)] + es).attempts == s.attempts
  {
    StopIsFinal(s, c, o, accepted);
    IdleStaysIdle(Step(s, Completion(c, o, accepted)), es);
    assert ([Completion(c, o, accepted)] + es)[1..] == es;
  }

  /** A refused send over a run: after it, no later event sends a command
      until a new channel is announced open, so the refused command is the
      last one sent. */
  lemma RefusedThenIdle(s: Driver, c: ChannelId, res: Msg, es: seq<Event>)
    requires s.inFlight == multiset{c} && |s.queue| > 0
    requires res.msgType != s.codes.failure
    requires WellFormed(Step(s, Completion(c, Result(res), false)), es)
    requires forall i :: 0 <= i < |es| ==> !(es[i].ChannelOpen? && es[i].isOpen)
    ensures Run(s, [Completion(c, Result(res), false)] + es).attempts
         == s.attempts + [Attempt(c, s.queue[0], false)]
  {
    RefusedIsDropped(s, c, res);
    IdleStaysIdle(Step(s, Completion(c, Result(res), false)), es);
    assert ([Completion(c, Result(res), false)] + es)[1..] == es;
  }

  /** One successful completion on channel `c` per result in `rs`, in order,
      each `SendCmd` on the way returning a query. */
  function SuccessesOf(c: ChannelId, rs: seq<Msg>): (es: seq<Event>)
    ensures |es| == |rs|
    ensures forall i :: 0 <= i < |rs| ==> es[i] == Completion(c, Result(rs[i]), true)
  {
    seq(|rs|, i requires 0 <= i < |rs| => Completion(c, Result(rs[i]), true))
  }

  /** The attempts that send each of `q` on `c`, in order, all accepted. */
  function SendsOn(c: ChannelId, q: seq<Msg>): (log: seq<Attempt>)
    ensures |log| == |q|
    ensures forall i :: 0 <= i < |q| ==> log[i] == Attempt(c, q[i], true)
  {
    seq(|q|, i requires 0 <= i < |q| => Attempt(c, q[i], true))
  }

  /** A run of successful completions is its first completion followed by a
      run of the rest. */
  lemma SuccessesCons(s: Driver, c: ChannelId, rs: seq<Msg>)
    requires |rs| > 0
    ensures Run(s, SuccessesOf(c, rs))
         == Run(Step(s, Completion(c, Result(rs[0]), true)), SuccessesOf(c, rs[1..]))
  {
    var es := SuccessesOf(c, rs);
    assert es[1..] == SuccessesOf(c, rs[1..]);
  }

  /** One non-`Failure` result on the only query in flight, with `SendCmd`
      accepting: on an empty queue the driver goes idle and reports that all
      commands ran; otherwise it sends the head on the same channel, which is
      then the only query in flight. */
  lemma SuccessStep(s: Driver, c: ChannelId, res: Msg)
    requires s.inFlight == multiset{c}
    requires res.msgType != s.codes.failure
    ensures var r := Step(s, Completion(c, Result(res), true));
      && r.codes == s.codes
      && (|s.queue| == 0 ==>
            && r.attempts == s.attempts && r.queue == [] && |r.inFlight| == 0
            && |r.reports| > 0 && r.reports[|r.reports| - 1] == AllCommandsExecuted)
      && (|s.queue| > 0 ==>
            && r.attempts == s.attempts + [Attempt(c, s.queue[0], true)]
            && r.queue == s.queue[1..] && r.inFlight == multiset{c})
  {
  }

  /** `r` is what `s` becomes once its whole queue has been sent on `c`, one
      accepted query per command in queue order, and the last completion has
      been handled: the queue is empty, nothing is in flight, and the last
      report is "all commands executed". */
  ghost predicate Drained(s: Driver, c: ChannelId, r: Driver)
  {
    && r.attempts == s.attempts + SendsOn(c, s.queue)
    && r.queue == []
    && |r.inFlight| == 0
    && |r.reports| > 0 && r.reports[|r.reports| - 1] == AllCommandsExecuted
  }

  /** Sending the head of the queue and then draining the rest drains the
      whole queue. */
  lemma DrainedCons(s: Driver, s': Driver, c: ChannelId, r: Driver)
    requires |s.queue| > 0
    requires s'.attempts == s.attempts + [Attempt(c, s.queue[0], true)]
    requires s'.queue == s.queue[1..]
    requires Drained(s', c, r)
    ensures Drained(s, c, r)
  {
  }

  /** With one query in flight on `c` and every completion a non-`Failure`
      result (each its own message), the remaining N queued commands are sent
      on `c` one at a time in queue order, and after the (N+1)th completion
      the queue is empty, nothing is in flight and the last report is "all
      commands executed". */
  lemma {:induction false} AllSucceed(s: Driver, c: ChannelId, rs: seq<Msg>)
    requires s.inFlight == multiset{c}
    requires |rs| == |s.queue| + 1
    requires forall i :: 0 <= i < |rs| ==> rs[i].msgType != s.codes.failure
    ensures Drained(s, c, Run(s, SuccessesOf(c, rs)))
    decreases |s.queue|
  {
    var s' := Step(s, Completion(c, Result(rs[0]), true));
    SuccessStep(s, c, rs[0]);
    SuccessesCons(s, c, rs);
    if |s.queue| > 0 {
      AllSucceed(s', c, rs[1..]);
      DrainedCons(s, s', c, Run(s', SuccessesOf(c, rs[1..])));
    }
  }

  /** Two commands A then B queued, the channel opens, the peer answers A
      with a non-`Failure` result: A is sent on the open, B is sent next and A
      is not sent again, and "all commands executed" has not been reported. */
  lemma TwoCommands(s: Driver, a: Msg, b: Msg, c: ChannelId, res: Msg)
    requires s.queue == [a, b] && s.attempts == [] && s.reports == []
    requires |s.inFlight| == 0
    requires res.msgType != s.codes.failure
    ensures var r := Step(Step(s, ChannelOpen(c, true, true)), Completion(c, Result(res), true));
      && r.attempts == [Attempt(c, a, true), Attempt(c, b, true)]
      && r.queue == []
      && r.inFlight == multiset{c}
      && r.reports == [ChannelOpened, RunningCommand(a.msgType), CommandCompleted(res.msgType),
                       RunningCommand(b.msgType)]
  {
  }

  /** A non-`Failure` result for the last command (B, above) reports it and
      then that all commands ran. */
  lemma LastSuccess(s: Driver, c: ChannelId, res: Msg)
    requires s.queue == []
    requires res.msgType != s.codes.failure
    ensures Step(s, Completion(c, Result(res), true)).reports
         == s.reports + [CommandCompleted(res.msgType), AllCommandsExecuted]
  {
  }


  /** A peer query cancelled before the handler runs gets no reply; a pending
      one gets exactly one `OK` reply without elements. */
  lemma IncomingReplies(s: Driver, isPending: bool)
    ensures |Step(s, IncomingQuery(isPending)).replies| == |s.replies| + (if isPending then 1 else 0)
    ensures isPending ==> Step(s, IncomingQuery(isPending)).replies == s.replies + [Msg(s.codes.ok, [])]
  {
  }
}
