/** Callbacks over the runs of the client: which are waiting, which fire, and that they fire for nothing else. */
module SessionCallbacks {
  import opened Wrappers
  import opened BayeuxSession
  import opened SessionSafety
  import opened SessionOrder
  import opened SessionProgress
  import opened SessionEndings
  import opened SessionEffects
  import Callbacks

  // ------------------------------------------------------------ what sending and failing do to callbacks

  lemma {:induction false} ForgottenExactly(c: Config, t: Callbacks.Table, ms: seq<Message>, id: nat)
    ensures var u := ForgetDropped(c, t, ms);
            && u.fired == t.fired && u.remoteCalls == t.remoteCalls && u.awaited == t.awaited && u.timers == t.timers
            && (id in u.callbacks <==> id in t.callbacks && (c.passes(id) || id !in IdSet(ms)))
    decreases |ms|
  {
    if ms != [] {
      ForgottenExactly(c, if c.passes(ms[0].id) then t else Callbacks.Forget(t, ms[0].id), ms[1..], id);
      assert ms == [ms[0]] + ms[1..];
      assert id in IdSet(ms) <==> id == ms[0].id || id in IdSet(ms[1..]);
    }
  }

  /** A queued message is failed: its callback, or its remote call, has fired, and no other callback is touched. */
  lemma {:induction false} FailedExactly(t: Callbacks.Table, ms: seq<Message>, id: nat)
    requires Callbacks.Consistent(t)
    ensures var u := FailQueued(t, ms);
            && (id in t.callbacks && id in IdSet(ms) ==> id in u.fired)
            && (id !in IdSet(ms) ==>
                  (id in u.fired <==> id in t.fired) && (id in u.callbacks <==> id in t.callbacks))
            && u.awaited == t.awaited
    decreases |ms|
  {
    if ms != [] {
      var m := ms[0];
      var t1 := if m.kind.Subscribe? || m.kind.Unsubscribe? then Callbacks.HandleCallback(t, m.id)
                else Callbacks.FailMessage(t, m.id);
      Callbacks.NextConsistent(t, if m.kind.Subscribe? || m.kind.Unsubscribe? then Callbacks.Acknowledged(m.id)
                                  else Callbacks.MessageFailed(m.id));
      assert ms == [ms[0]] + ms[1..];
      assert id in IdSet(ms) <==> id == m.id || id in IdSet(ms[1..]);
      FailedExactly(t1, ms[1..], id);
      FailQueuedConsistent(t1, ms[1..]);
    }
  }

  /** A queued remote call is failed: it has called back. */
  lemma {:induction false} FailedRemoteCallFires(t: Callbacks.Table, ms: seq<Message>, m: Message)
    requires Callbacks.Consistent(t) && m in ms && m.kind.RemoteCall? && m.id in t.awaited
    ensures m.id in FailQueued(t, ms).fired
    decreases |ms|
  {
    var x := ms[0];
    var t1 := if x.kind.Subscribe? || x.kind.Unsubscribe? then Callbacks.HandleCallback(t, x.id)
              else Callbacks.FailMessage(t, x.id);
    Callbacks.NextConsistent(t, if x.kind.Subscribe? || x.kind.Unsubscribe? then Callbacks.Acknowledged(x.id)
                                else Callbacks.MessageFailed(x.id));
    if x == m {
      FailQueuedConsistent(t1, ms[1..]);
      TimeoutFires(t, m.id);
    } else {
      FailedRemoteCallFires(t1, ms[1..], m);
    }
  }

  // ------------------------------------------------------------------------ where callbacks fire

  /** Outside these ids the steps leaves every callback waiting or fired as it was. */
  ghost predicate Local(s: State, t: State, ids: set<nat>) {
    forall id | id !in ids ::
      (id in t.calls.fired <==> id in s.calls.fired) && (id in t.calls.callbacks <==> id in s.calls.callbacks)
  }

  /** Each queued message waits on, was sent, or was failed, and then its callback or its remote call has fired. */
  ghost predicate Settles(s: State, t: State) {
    forall m | m in s.queue :: m in t.queue || m.id in t.sent || FiredIfAny(s, t, m)
  }

  ghost predicate FiredIfAny(s: State, t: State, m: Message) {
    m.id in s.calls.callbacks || (m.kind.RemoteCall? && m.id in s.calls.awaited) ==> m.id in t.calls.fired
  }

  lemma AcknowledgeIs(s: State, id: nat)
    requires CallsOk(s)
    ensures var t := Acknowledge(s, id);
            && Advances(s, t) && Local(s, t, {id}) && (id in s.calls.callbacks ==> id in t.calls.fired)
            && t.queue == s.queue && t.sent == s.sent && t.calls.awaited == s.calls.awaited
  {
    AcknowledgeOk(s, id);
  }

  lemma DisconnectIs(s: State)
    requires CallsOk(s)
    ensures var t := Disconnect(s);
            Advances(s, t) && Local(s, t, IdSet(s.queue)) && Settles(s, t) && t.calls.awaited == s.calls.awaited
  {
    DisconnectOk(s, 0);
    forall id | id !in IdSet(s.queue)
      ensures (id in Disconnect(s).calls.fired <==> id in s.calls.fired)
           && (id in Disconnect(s).calls.callbacks <==> id in s.calls.callbacks)
    {
      FailedExactly(s.calls, s.queue, id);
    }
    forall m | m in s.queue ensures FiredIfAny(s, Disconnect(s), m) {
      FailedExactly(s.calls, s.queue, m.id);
      if m.kind.RemoteCall? && m.id in s.calls.awaited {
        FailedRemoteCallFires(s.calls, s.queue, m);
      }
    }
    FailedExactly(s.calls, s.queue, 0);
  }

  /** The callback of this id has fired, everything else concerns the queue only. */
  ghost predicate Fires(s: State, t: State, id: nat) {
    && Advances(s, t) && (id in s.calls.callbacks ==> id in t.calls.fired)
    && Local(s, t, {id} + IdSet(s.queue)) && Settles(s, t)
  }

  lemma DisconnectReportedIs(s: State, id: nat)
    requires CallsOk(s)
    ensures Fires(s, DisconnectReported(s, id), id)
  {
    DisconnectIs(s);
    AcknowledgeIs(Disconnect(s), id);
    FailedExactly(s.calls, s.queue, id);
  }

  /** First the callback of this id, then the queue. */
  lemma AcknowledgeThenDisconnect(s: State, id: nat)
    requires CallsOk(s)
    ensures Fires(s, Disconnect(Acknowledge(s, id)), id)
  {
    var s1 := Acknowledge(s, id);
    var t := Disconnect(s1);
    AcknowledgeIs(s, id);
    DisconnectIs(s1);
    forall m | m in s.queue ensures m.id in t.sent || FiredIfAny(s, t, m) {
      assert m.id in t.sent || FiredIfAny(s1, t, m);
    }
  }

  lemma FailHandshakeFires(c: Config, s: State, id: nat)
    requires CallsOk(s)
    ensures Fires(s, FailHandshake(c, s, id), id)
  {
    AcknowledgeIs(s, id);
    AcknowledgeThenDisconnect(s, id);
  }

  lemma LostHandshakeFires(c: Config, s: State, id: nat, negotiates: bool)
    requires CallsOk(s) && s.transport
    ensures Fires(s, Left(HandshakeFailed(c, s, id, negotiates)), id)
  {
    if negotiates {
      FailHandshakeFires(c, s, id);
    } else {
      var s1 := Disconnect(s);
      DisconnectIs(s);
      FailHandshakeFires(c, s1, id);
      FailedExactly(s.calls, s.queue, id);
      var t := FailHandshake(c, s1, id);
      forall m | m in s.queue ensures m.id in t.sent || FiredIfAny(s, t, m) {
        assert m.id in s1.sent || FiredIfAny(s, s1, m);
      }
    }
  }

  lemma FlushIsLocal(c: Config, s: State)
    requires CallsOk(s) && QueueOk(s)
    ensures var t := FlushBatch(c, s);
            && Advances(s, t) && Local(s, t, IdSet(s.queue)) && Settles(s, t) && t.calls.fired == s.calls.fired
            && t.queue == [] && t.calls.awaited == s.calls.awaited
            && forall m | m in s.queue && c.passes(m.id) :: m.id in s.calls.callbacks <==> m.id in t.calls.callbacks
  {
    FlushOk(c, s);
    forall id
      ensures id in FlushBatch(c, s).calls.callbacks <==>
              id in s.calls.callbacks && (c.passes(id) || id !in IdSet(s.queue))
    {
      ForgottenExactly(c, s.calls, s.queue, id);
    }
    ForgottenExactly(c, s.calls, s.queue, 0);
    AllApplications(s.queue);
    forall m | m in s.queue ensures m.id in FlushBatch(c, s).sent {
      var k :| 0 <= k < |s.queue| && s.queue[k] == m;
      assert Ids(s.queue)[k] == m.id;
    }
  }

  lemma ProceedIsLocal(s: State)
    requires CallsOk(s) && s.queue == []
    ensures Advances(s, Left(Proceed(s))) && Local(s, Left(Proceed(s)), {})
  {
    DisconnectIs(s);
    ProceedOk(s);
  }

  lemma SucceededFires(c: Config, s: State, id: nat, clientId: Option<string>)
    requires CallsOk(s) && QueueOk(s) && s.transport && id !in IdSet(s.queue)
    ensures Fires(s, Left(HandshakeSucceeded(c, s, id, clientId, true)), id)
  {
    var s1 := s.(clientId := clientId, internalBatch := false);
    var s2 := FlushBatch(c, s1);
    var s3 := Acknowledge(s2, id);
    FlushIsLocal(c, s1);
    AcknowledgeIs(s2, id);
    ProceedIsLocal(s3);
    var t := Left(Proceed(s3));
    assert Left(HandshakeSucceeded(c, s, id, clientId, true)) == t && t.sent == s2.sent;
  }

  // ---------------------------------------------------- operations and submissions have their own ids

  ghost predicate IdsApart(s: State) {
    forall m | m in s.inFlight && IsOperation(m.kind) :: m.id !in s.submitted
  }

  lemma HandshakeReportSubmits(c: Config, s: State, e: Event)
    requires Enabled(s, e) && (e.HandshakeReply? || e.HandshakeLost?)
    ensures After(c, s, e).submitted == s.submitted
  {
    var s0 := Landed(s, e.m);
    if e.HandshakeLost? {
      HandshakeFailedContinues(c, s0, e.m.id, e.negotiates);
    } else if e.successful {
      SucceededSubmits(c, UpdateAdvice(s0, e.newAdvice), e.m.id, Some(e.clientId), e.negotiates);
    } else {
      FailHandshakeContinues(c, UpdateAdvice(s0, e.newAdvice), e.m.id);
    }
  }

  lemma SucceededSubmits(c: Config, s: State, id: nat, clientId: Option<string>, negotiates: bool)
    ensures Left(HandshakeSucceeded(c, s, id, clientId, negotiates)).submitted == s.submitted
  {
    assert FlushBatch(c, s.(clientId := clientId, internalBatch := false)).submitted == s.submitted;
  }

  lemma OtherReportSubmits(c: Config, s: State, e: Event)
    requires Enabled(s, e) && (e.DisconnectReply? || e.ApplicationReply? || e.Unanswered?)
    ensures After(c, s, e).submitted == s.submitted
  {
  }

  lemma ConnectReportSubmits(c: Config, s: State, e: Event)
    requires Enabled(s, e) && (e.ConnectReply? || e.ConnectLost?)
    ensures After(c, s, e).submitted == s.submitted
  {
    if e.ConnectReply? {
      ConnectResponseContinues(c, UpdateAdvice(Landed(s, e.m), e.newAdvice), e.successful);
    } else {
      FailConnectContinues(c, Landed(s, e.m).(connected := false));
    }
  }

  lemma ReportApart(c: Config, s: State, e: Event)
    requires IdsApart(s) && QueueOk(s) && Enabled(s, e) && Reports(e)
    ensures IdsApart(After(c, s, e))
  {
    if e.HandshakeReply? || e.HandshakeLost? {
      HandshakeReportSubmits(c, s, e);
    } else if e.ConnectReply? || e.ConnectLost? {
      ConnectReportSubmits(c, s, e);
    } else {
      OtherReportSubmits(c, s, e);
    }
    if e.HandshakeReply? && e.successful && e.negotiates && s.transport {
      AcceptanceFlushes(c, s, e);
      InNameOfApplications(c, Some(e.clientId), s.queue);
    } else {
      ReportsSendNothing(c, s, e);
    }
  }

  lemma {:induction false} InNameOfApplications(c: Config, clientId: Option<string>, ms: seq<Message>)
    requires forall m | m in ms :: IsApplication(m.kind)
    ensures forall m | m in InNameOf(c, clientId, ms) :: IsApplication(m.kind)
  {
    if ms != [] {
      InNameOfApplications(c, clientId, ms[..|ms| - 1]);
    }
  }

  lemma LaunchApart(c: Config, s: State, t: State, kind: Kind, clientId: Option<string>)
    requires IdsApart(s) && Launches(c, s, t, kind, clientId)
    requires forall id | id in s.submitted :: id <= s.calls.messageId
    ensures IdsApart(t)
  {
  }

  lemma StartApart(c: Config, s: State, e: Event)
    requires IdsApart(s) && Enabled(s, e) && forall id | id in s.submitted :: id <= s.calls.messageId
    requires e.AppHandshake? || e.AppDisconnect? || e.TimerFires?
    ensures IdsApart(After(c, s, e))
  {
    if e.AppDisconnect? {
      DisconnectsStart(c, s, e.hasCallback);
    } else if e.TimerFires? && s.scheduled.value.operation == SendConnect {
      ConnectsStart(c, s, e);
    } else {
      HandshakesStart(c, s, e);
      if Step(c, s, e).Err? {
        ThrownHandshake(c, s, e);
      }
    }
  }

  lemma ThrownHandshake(c: Config, s: State, e: Event)
    requires Enabled(s, e) && Step(c, s, e).Err?
    requires e.AppHandshake? || (e.TimerFires? && s.scheduled.value.operation == SendHandshake)
    ensures After(c, s, e).inFlight == s.inFlight && After(c, s, e).submitted == s.submitted
  {
  }

  lemma SubmissionApart(c: Config, s: State, e: Event)
    requires IdsApart(s) && IdsBounded(s) && QueueOk(s) && Identified(s) && Enabled(s, e) && Submits(e)
    ensures IdsApart(After(c, s, e))
  {
    match e
    case AppSubmit(_, _) => SubmissionIs(c, s, e);
    case AppRemoteCall(_, _) => SubmissionIs(c, s, e);
    case AppStartBatch => StartBatchIs(c, s);
    case AppEndBatch => EndBatchApart(c, s);
    case RemoteCallTimer(_) =>
  }

  lemma EndBatchApart(c: Config, s: State)
    requires IdsApart(s) && QueueOk(s) && Identified(s) && s.batch > 0
    ensures IdsApart(After(c, s, AppEndBatch))
  {
    EndBatchIs(c, s);
    InNameOfApplications(c, s.clientId, s.queue);
    assert After(c, s, AppEndBatch).submitted == s.submitted;
  }

  lemma {:induction false} RunKeepsApart(c: Config, states: seq<State>, events: seq<Event>, i: nat)
    requires IsRun(c, states, events) && i <= |events|
    ensures IdsApart(states[i])
  {
    if i > 0 {
      var s, e := states[i - 1], events[i - 1];
      RunKeepsApart(c, states, events, i - 1);
      OneOperationAtATime(c, states, events, i - 1);
      NothingUnidentifiedIsSent(c, states, events, i - 1);
      MessagesLeaveInOrder(c, states, events, i - 1);
      RunBoundsIds(c, states, events, i - 1);
      StepApart(c, s, e);
      assert states[i - 1 + 1] == After(c, s, e);
    }
  }

  lemma StepApart(c: Config, s: State, e: Event)
    requires IdsApart(s) && IdsBounded(s) && QueueOk(s) && Identified(s) && Enabled(s, e)
    requires forall id | id in s.submitted :: id <= s.calls.messageId
    ensures IdsApart(After(c, s, e))
  {
    if Reports(e) {
      ReportApart(c, s, e);
    } else if Submits(e) {
      SubmissionApart(c, s, e);
    } else {
      StartApart(c, s, e);
    }
  }

  /** No operation in flight has the id of a message that waits. */
  lemma OperationIdsNotQueued(c: Config, states: seq<State>, events: seq<Event>, i: nat, m: Message)
    requires IsRun(c, states, events) && i <= |events| && m in states[i].inFlight && IsOperation(m.kind)
    ensures m.id !in IdSet(states[i].queue)
  {
    var s := states[i];
    RunKeepsApart(c, states, events, i);
    MessagesLeaveInOrder(c, states, events, i);
    KeptElems(s.submitted, s.failed);
    QueueIds(s.queue);
    forall id | id in Ids(s.queue) ensures id in s.submitted {
      assert id in s.sent + Ids(s.queue);
    }
  }

  // -------------------------------------------------------------------------------- the theorems

  /** What concludes an ordinary message: its answer or failure, the end of the session it asked for, and for a
      handshake its refusal, its loss, or its acceptance with a transport to go on with. */
  predicate Answers(s: State, e: Event, id: nat) {
    && Reports(e) && e.m.id == id
    && match e
       case ApplicationReply(_, verdict, _) => !verdict.Data?
       case DisconnectReply(_, _) => true
       case HandshakeReply(_, successful, _, negotiates, _) => !successful || (negotiates && s.transport)
       case HandshakeLost(_, _) => s.transport
       case _ => false
  }

  lemma ApplicationAnswerFires(c: Config, s: State, e: Event)
    requires CallsOk(s) && Enabled(s, e) && e.ApplicationReply? && !e.verdict.Data? && e.m.id in s.calls.callbacks
    ensures e.m.id in After(c, s, e).calls.fired
  {
  }

  lemma HandshakeReplyFires(c: Config, s: State, e: Event)
    requires CallsOk(s) && QueueOk(s) && Enabled(s, e) && e.HandshakeReply? && Answers(s, e, e.m.id)
    requires e.m.id !in IdSet(s.queue)
    ensures Fires(s, After(c, s, e), e.m.id)
  {
    var s1 := UpdateAdvice(Landed(s, e.m), e.newAdvice);
    if e.successful {
      SucceededFires(c, s1, e.m.id, Some(e.clientId));
    } else {
      FailHandshakeFires(c, s1, e.m.id);
    }
  }

  lemma AnswerFires(c: Config, s: State, e: Event, id: nat)
    requires CallsOk(s) && QueueOk(s) && Enabled(s, e) && Answers(s, e, id) && id in s.calls.callbacks
    requires e.HandshakeReply? ==> id !in IdSet(s.queue)
    ensures id in After(c, s, e).calls.fired
  {
    match e
    case HandshakeReply(_, _, _, _, _) => HandshakeReplyFires(c, s, e);
    case HandshakeLost(m, negotiates) => LostHandshakeFires(c, Landed(s, m), id, negotiates);
    case DisconnectReply(m, newAdvice) => DisconnectReportedIs(UpdateAdvice(Landed(s, m), newAdvice), id);
    case ApplicationReply(_, _, _) => ApplicationAnswerFires(c, s, e);
  }

  /** In every run, the callback of a message fires exactly once when its message is concluded, and stays so for the
      rest of the run. */
  lemma CallbacksFireOnce(c: Config, states: seq<State>, events: seq<Event>, i: nat, j: nat, id: nat)
    requires IsRun(c, states, events) && i < j <= |events|
    requires id in states[i].calls.callbacks && Answers(states[i], events[i], id)
    ensures multiset(states[j].calls.fired)[id] == 1
  {
    var s, e := states[i], events[i];
    SessionCallbacksFireOnce(c, states, events, i);
    SessionCallbacksFireOnce(c, states, events, j);
    OneOperationAtATime(c, states, events, i);
    if e.HandshakeReply? {
      OperationIdsNotQueued(c, states, events, i, e.m);
    }
    AnswerFires(c, s, e, id);
    assert states[i + 1] == After(c, s, e);
    FiredStays(c, states, events, i + 1, j, id);
    Callbacks.NoRepeatsCount(states[j].calls.fired, id);
  }

  // ----------------------------------------------------------------- what a disconnection fails

  lemma ProceedSettles(s: State)
    requires CallsOk(s)
    ensures Settles(s, Left(Proceed(s))) && Local(s, Left(Proceed(s)), IdSet(s.queue))
  {
    DisconnectIs(s);
  }

  lemma FailConnectSettles(c: Config, s: State)
    requires CallsOk(s)
    ensures Settles(s, Left(FailConnect(c, s))) && Local(s, Left(FailConnect(c, s)), IdSet(s.queue))
  {
    DisconnectIs(s);
    if !IsDisconnected(s) && !s.advice.reconnect.NoReconnect? {
      assert Left(FailConnect(c, s)).queue == s.queue && Left(FailConnect(c, s)).calls == s.calls;
    }
  }

  ghost predicate BooksKept(s: State, t: State) {
    Settles(s, t) && Local(s, t, IdSet(s.queue))
  }

  lemma ConnectLostSettles(c: Config, s: State, e: Event)
    requires CallsOk(s) && Enabled(s, e) && e.ConnectLost?
    ensures BooksKept(s, After(c, s, e))
  {
    var s1 := Landed(s, e.m).(connected := false);
    FailConnectSettles(c, s1);
    SameBooks(s, s1, Left(FailConnect(c, s1)));
  }

  lemma ConnectReplySettles(c: Config, s: State, e: Event)
    requires CallsOk(s) && Enabled(s, e) && e.ConnectReply?
    ensures BooksKept(s, After(c, s, e))
  {
    var s1 := UpdateAdvice(Landed(s, e.m), e.newAdvice).(connected := e.successful);
    if e.successful {
      ProceedSettles(s1);
      SameBooks(s, s1, Left(Proceed(s1)));
    } else {
      FailConnectSettles(c, s1);
      SameBooks(s, s1, Left(FailConnect(c, s1)));
    }
  }

  lemma SameBooks(s: State, s1: State, t: State)
    requires s1.queue == s.queue && s1.calls == s.calls
    requires Settles(s1, t) && Local(s1, t, IdSet(s1.queue))
    ensures BooksKept(s, t)
  {
    forall m | m in s.queue ensures m in t.queue || m.id in t.sent || FiredIfAny(s, t, m) {
      assert m in t.queue || m.id in t.sent || FiredIfAny(s1, t, m);
    }
  }

  /** An accepted handshake without a transport to go on with ends the session; without one at all it throws. */
  lemma UselessAcceptanceSettles(c: Config, s: State, e: Event)
    requires CallsOk(s) && Enabled(s, e) && e.HandshakeReply? && e.successful && !(e.negotiates && s.transport)
    ensures Settles(s, After(c, s, e)) && Local(s, After(c, s, e), IdSet(s.queue))
  {
    DisconnectIs(UpdateAdvice(Landed(s, e.m), e.newAdvice).(clientId := Some(e.clientId)));
  }

  lemma HandshakeReportSettles(c: Config, s: State, e: Event)
    requires CallsOk(s) && QueueOk(s) && Enabled(s, e) && (e.HandshakeReply? || e.HandshakeLost?)
    requires e.m.id !in IdSet(s.queue)
    ensures Settles(s, After(c, s, e)) && Local(s, After(c, s, e), {e.m.id} + IdSet(s.queue))
  {
    if e.HandshakeLost? {
      if s.transport {
        LostHandshakeFires(c, Landed(s, e.m), e.m.id, e.negotiates);
      }
    } else if Answers(s, e, e.m.id) {
      HandshakeReplyFires(c, s, e);
    } else {
      UselessAcceptanceSettles(c, s, e);
    }
  }

  lemma DisconnectReplySettles(c: Config, s: State, e: Event)
    requires CallsOk(s) && Enabled(s, e) && e.DisconnectReply?
    ensures Settles(s, After(c, s, e)) && Local(s, After(c, s, e), {e.m.id} + IdSet(s.queue))
  {
    DisconnectReportedIs(UpdateAdvice(Landed(s, e.m), e.newAdvice), e.m.id);
  }

  lemma TableIsLocal(t: Callbacks.Table, m: nat, id: nat)
    requires id != m
    ensures id in Callbacks.HandleRemoteCall(t, m).fired <==> id in t.fired
    ensures id in Callbacks.HandleCallback(t, m).fired <==> id in t.fired
    ensures id in Callbacks.FailMessage(t, m).fired <==> id in t.fired
    ensures id in Callbacks.HandleRemoteCall(t, m).callbacks <==> id in t.callbacks
    ensures id in Callbacks.HandleCallback(t, m).callbacks <==> id in t.callbacks
    ensures id in Callbacks.FailMessage(t, m).callbacks <==> id in t.callbacks
  {
  }

  lemma ApplicationReplySettles(c: Config, s: State, e: Event)
    requires CallsOk(s) && Enabled(s, e) && (e.ApplicationReply? || e.Unanswered?)
    ensures Settles(s, After(c, s, e)) && Local(s, After(c, s, e), {e.m.id})
  {
    if e.ApplicationReply? {
      ApplicationReportedIs(UpdateAdvice(Landed(s, e.m), e.newAdvice), e.m, e.verdict);
    }
  }

  lemma ApplicationReportedIs(s: State, m: Message, v: Verdict)
    ensures var t := ApplicationReported(s, m, v);
            Local(s, t, {m.id}) && t.queue == s.queue && t.sent == s.sent
  {
    var t := ApplicationReported(s, m, v);
    forall id | id != m.id
      ensures (id in t.calls.fired <==> id in s.calls.fired) && (id in t.calls.callbacks <==> id in s.calls.callbacks)
    {
      TableIsLocal(s.calls, m.id, id);
    }
  }

  lemma ReportSettles(c: Config, s: State, e: Event)
    requires CallsOk(s) && QueueOk(s) && Enabled(s, e) && Reports(e)
    requires e.HandshakeReply? || e.HandshakeLost? ==> e.m.id !in IdSet(s.queue)
    ensures Settles(s, After(c, s, e)) && Local(s, After(c, s, e), {e.m.id} + IdSet(s.queue))
  {
    match e
    case HandshakeReply(_, _, _, _, _) => HandshakeReportSettles(c, s, e);
    case HandshakeLost(_, _) => HandshakeReportSettles(c, s, e);
    case ConnectReply(_, _, _) => ConnectReplySettles(c, s, e);
    case ConnectLost(_) => ConnectLostSettles(c, s, e);
    case DisconnectReply(_, _) => DisconnectReplySettles(c, s, e);
    case ApplicationReply(_, _, _) => ApplicationReplySettles(c, s, e);
    case Unanswered(_) => ApplicationReplySettles(c, s, e);
  }

  lemma SubmissionSettles(c: Config, s: State, e: Event)
    requires CallsOk(s) && QueueOk(s) && Identified(s) && Enabled(s, e) && Submits(e)
    ensures Settles(s, After(c, s, e))
  {
    match e
    case AppSubmit(_, _) => SubmissionIs(c, s, e);
    case AppRemoteCall(_, _) => SubmissionIs(c, s, e);
    case AppStartBatch => StartBatchIs(c, s);
    case AppEndBatch =>
      FlushIsLocal(c, s.(batch := s.batch - 1));
    case RemoteCallTimer(_) =>
  }

  lemma StartSettles(c: Config, s: State, e: Event)
    requires Enabled(s, e) && (e.AppHandshake? || e.AppDisconnect? || e.TimerFires?)
    ensures Settles(s, After(c, s, e))
  {
    if e.AppDisconnect? {
      DisconnectsStart(c, s, e.hasCallback);
    } else if e.TimerFires? && s.scheduled.value.operation == SendConnect {
      ConnectsStart(c, s, e);
    } else if Step(c, s, e).Ok? {
      HandshakesStart(c, s, e);
    }
  }

  /** In every run, a message that leaves the queue without being sent was failed, and its callback or its remote call
      has fired by then. */
  lemma FailedMessagesCallBack(c: Config, states: seq<State>, events: seq<Event>, i: nat, m: Message)
    requires IsRun(c, states, events) && i < |events| && m in states[i].queue
    requires m !in states[i + 1].queue && m.id !in states[i + 1].sent
    ensures FiredIfAny(states[i], states[i + 1], m)
  {
    var s, e := states[i], events[i];
    SessionCallbacksFireOnce(c, states, events, i);
    OneOperationAtATime(c, states, events, i);
    NothingUnidentifiedIsSent(c, states, events, i);
    if Reports(e) {
      if e.HandshakeReply? || e.HandshakeLost? {
        OperationIdsNotQueued(c, states, events, i, e.m);
      }
      ReportSettles(c, s, e);
    } else if Submits(e) {
      SubmissionSettles(c, s, e);
    } else {
      StartSettles(c, s, e);
    }
  }

  // ------------------------------------------------------------------- which callbacks are waiting

  /** The events that come with a callback of their own. */
  predicate Brings(s: State, e: Event) {
    match e
    case AppHandshake(hasCallback, _) => hasCallback
    case AppDisconnect(hasCallback) => hasCallback && !IsDisconnected(s)
    case AppSubmit(_, hasCallback) => hasCallback && !IsDisconnected(s)
    case TimerFires(_) => s.scheduled.Some? && s.scheduled.value.operation == SendHandshake && s.handshakeCallback
    case _ => false
  }

  lemma HandshakeBrings(c: Config, s: State, hasCallback: bool, negotiates: bool, id: nat)
    requires CallsOk(s)
    ensures var r := Handshake(c, s, hasCallback, negotiates);
            var t := Left(r);
            var own := s.calls.messageId + 1;
            && t.calls.fired == s.calls.fired
            && (id in t.calls.callbacks <==>
                  id in s.calls.callbacks || (id == own && hasCallback && (c.passes(id) || r.Err?)))
  {
    var t := Callbacks.Register(s.calls, hasCallback);
    var m := Message(t.messageId, MetaHandshake, None);
    ForgottenExactly(c, t, [m], id);
    assert IdSet([m]) == {m.id};
  }

  lemma DisconnectBrings(c: Config, s: State, hasCallback: bool, id: nat)
    requires CallsOk(s) && !IsDisconnected(s)
    ensures var t := StopSession(c, s, hasCallback);
            && t.calls.fired == s.calls.fired
            && (id in t.calls.callbacks <==>
                  id in s.calls.callbacks || (id == s.calls.messageId + 1 && hasCallback && c.passes(id)))
  {
    var t := Callbacks.Register(s.calls, hasCallback);
    var m := Message(t.messageId, MetaDisconnect, None);
    ForgottenExactly(c, t, [m], id);
    assert IdSet([m]) == {m.id};
  }

  lemma ConnectBrings(c: Config, s: State, id: nat)
    requires CallsOk(s)
    ensures var t := Connect(c, s);
            t.calls.fired == s.calls.fired && (id in t.calls.callbacks <==> id in s.calls.callbacks)
  {
    var t := Callbacks.Register(s.calls, false);
    var m := Message(t.messageId, MetaConnect, None);
    ForgottenExactly(c, t, [m], id);
    assert IdSet([m]) == {m.id};
  }

  lemma SubmitBrings(c: Config, s: State, kind: Kind, hasCallback: bool, id: nat)
    requires CallsOk(s) && !IsDisconnected(s)
    ensures var t := Submit(c, s, kind, hasCallback);
            var queued := s.batch > 0 || s.internalBatch;
            && t.calls.fired == s.calls.fired
            && (id in t.calls.callbacks <==>
                  id in s.calls.callbacks || (id == s.calls.messageId + 1 && hasCallback && (queued || c.passes(id))))
  {
    var t := Callbacks.Register(s.calls, hasCallback);
    var m := Message(t.messageId, kind, None);
    ForgottenExactly(c, t, [m], id);
    assert IdSet([m]) == {m.id};
  }

  lemma TimerBrings(c: Config, s: State, negotiates: bool, id: nat)
    requires CallsOk(s) && s.scheduled.Some?
    ensures var e := TimerFires(negotiates);
            var t := After(c, s, e);
            && t.calls.fired == s.calls.fired
            && (id in t.calls.callbacks <==>
                  || id in s.calls.callbacks
                  || (id == s.calls.messageId + 1 && Brings(s, e) && (c.passes(id) || Step(c, s, e).Err?)))
  {
    if s.scheduled.value.operation == SendConnect {
      ConnectBrings(c, s.(scheduled := None), id);
    } else {
      HandshakeBrings(c, s.(scheduled := None), s.handshakeCallback, negotiates, id);
    }
  }

  /** An event with a callback stores it under the id of its message, unless an extension drops that message at once;
      and no call of the application and no timer makes a stored callback fire or go away. */
  lemma CallbacksAreStored(c: Config, s: State, e: Event, id: nat)
    requires CallsOk(s) && Enabled(s, e)
    requires e.AppHandshake? || e.AppDisconnect? || e.TimerFires? || e.AppSubmit?
    ensures var t := After(c, s, e);
            var kept := c.passes(id) || Step(c, s, e).Err? || (e.AppSubmit? && (s.batch > 0 || s.internalBatch));
            && t.calls.fired == s.calls.fired
            && (id in t.calls.callbacks <==>
                  id in s.calls.callbacks || (id == s.calls.messageId + 1 && Brings(s, e) && kept))
  {
    match e
    case AppHandshake(hasCallback, negotiates) =>
      HandshakeBrings(c, s.(status := Disconnected), hasCallback, negotiates, id);
    case AppDisconnect(hasCallback) =>
      if !IsDisconnected(s) {
        DisconnectBrings(c, s, hasCallback, id);
      }
    case TimerFires(negotiates) =>
      TimerBrings(c, s, negotiates, id);
    case AppSubmit(kind, hasCallback) =>
      if !IsDisconnected(s) {
        SubmitBrings(c, s, kind, hasCallback, id);
      }
  }

  /** A remote call is stored with its callback and its timeout, whatever the extensions do to its message. */
  lemma RemoteCallsAreStored(c: Config, s: State, notifies: bool, timed: bool)
    requires CallsOk(s) && !IsDisconnected(s)
    ensures var t := After(c, s, AppRemoteCall(notifies, timed)).calls;
            var id := s.calls.messageId + 1;
            && t.remoteCalls == s.calls.remoteCalls[id := Callbacks.RemoteCall(notifies, timed)]
            && t.timers == s.calls.timers + (if timed then {id} else {})
            && t.awaited == s.calls.awaited + (if notifies then {id} else {})
            && t.fired == s.calls.fired && t.callbacks == s.calls.callbacks
  {
    var t := Callbacks.RegisterRemote(s.calls, notifies, timed);
    var m := Message(t.messageId, RemoteCall, None);
    var u := After(c, s, AppRemoteCall(notifies, timed)).calls;
    assert u == t || u == ForgetDropped(c, t, [m]);
    ForgottenExactly(c, t, [m], m.id);
    assert m.id !in s.calls.callbacks;
    SoleDropped(c, t, m);
  }

  lemma SoleDropped(c: Config, t: Callbacks.Table, m: Message)
    requires m.id !in t.callbacks
    ensures ForgetDropped(c, t, [m]).callbacks == t.callbacks
  {
    assert [m][1..] == [];
  }

  /** A batch that is sent fires nothing, and forgets only the callbacks of messages that an extension drops. */
  lemma BatchesKeepCallbacks(c: Config, s: State, id: nat)
    requires CallsOk(s) && QueueOk(s) && s.batch > 0
    ensures var t := After(c, s, AppEndBatch);
            && (id in t.calls.fired <==> id in s.calls.fired)
            && (id in t.calls.callbacks <==>
                  id in s.calls.callbacks && (c.passes(id) || id !in IdSet(s.queue) || t.queue == s.queue))
  {
    ForgottenExactly(c, s.calls, s.queue, id);
    if s.queue == [] {
      assert IdSet(s.queue) == {};
    }
  }

  /** A report concerns no callback but that of its message and those of the queue. */
  lemma ReportsConcernTheirMessage(c: Config, states: seq<State>, events: seq<Event>, i: nat, id: nat)
    requires IsRun(c, states, events) && i < |events| && Reports(events[i])
    requires id != events[i].m.id && id !in IdSet(states[i].queue)
    ensures id in states[i + 1].calls.fired <==> id in states[i].calls.fired
    ensures id in states[i + 1].calls.callbacks <==> id in states[i].calls.callbacks
  {
    var s, e := states[i], events[i];
    SessionCallbacksFireOnce(c, states, events, i);
    OneOperationAtATime(c, states, events, i);
    if e.HandshakeReply? || e.HandshakeLost? {
      OperationIdsNotQueued(c, states, events, i, e.m);
    }
    ReportSettles(c, s, e);
  }
}
