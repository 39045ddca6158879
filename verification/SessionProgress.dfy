/** Callbacks, liveness of the retry loop, and the steps that throw. */
module SessionProgress {
  import opened Wrappers
  import opened BayeuxSession
  import opened SessionSafety
  import Callbacks

  // ---------------------------------------------------------------------------- callbacks

  ghost predicate CallsOk(s: State) {
    Callbacks.Consistent(s.calls)
  }

  /** The table stays consistent, and what has called back has called back. */
  ghost predicate Advances(s: State, t: State) {
    CallsOk(t) && Callbacks.FiresMore(s.calls, t.calls)
  }

  lemma {:induction false} ForgetConsistent(c: Config, t: Callbacks.Table, ms: seq<Message>)
    requires Callbacks.Consistent(t)
    ensures Callbacks.Consistent(ForgetDropped(c, t, ms)) && ForgetDropped(c, t, ms).fired == t.fired
    decreases |ms|
  {
    if ms != [] {
      Callbacks.NextConsistent(t, Callbacks.Dropped(ms[0].id));
      ForgetConsistent(c, if c.passes(ms[0].id) then t else Callbacks.Forget(t, ms[0].id), ms[1..]);
    }
  }

  lemma {:induction false} FailQueuedConsistent(t: Callbacks.Table, ms: seq<Message>)
    requires Callbacks.Consistent(t)
    ensures Callbacks.Consistent(FailQueued(t, ms)) && Callbacks.FiresMore(t, FailQueued(t, ms))
    decreases |ms|
  {
    if ms != [] {
      var e := if ms[0].kind.Subscribe? || ms[0].kind.Unsubscribe? then Callbacks.Acknowledged(ms[0].id)
               else Callbacks.MessageFailed(ms[0].id);
      Callbacks.NextConsistent(t, e);
      FailQueuedConsistent(Callbacks.Next(t, e), ms[1..]);
    }
  }

  lemma AcknowledgeOk(s: State, id: nat)
    requires CallsOk(s)
    ensures Advances(s, Acknowledge(s, id))
  {
    Callbacks.NextConsistent(s.calls, Callbacks.Acknowledged(id));
  }

  lemma DisconnectOk(s: State, id: nat)
    requires CallsOk(s)
    ensures Advances(s, Disconnect(s)) && Advances(s, DisconnectReported(s, id))
  {
    FailQueuedConsistent(s.calls, s.queue);
    AcknowledgeOk(Disconnect(s), id);
  }

  lemma FailHandshakeOk(c: Config, s: State, id: nat)
    requires CallsOk(s)
    ensures Advances(s, FailHandshake(c, s, id))
  {
    AcknowledgeOk(s, id);
    DisconnectOk(Acknowledge(s, id), id);
  }

  lemma FailConnectOk(c: Config, s: State)
    requires CallsOk(s)
    ensures Advances(s, Left(FailConnect(c, s)))
  {
    DisconnectOk(s, 0);
  }

  lemma HandshakeFailedOk(c: Config, s: State, id: nat, negotiates: bool)
    requires CallsOk(s)
    ensures Advances(s, Left(HandshakeFailed(c, s, id, negotiates)))
  {
    DisconnectOk(s, id);
    FailHandshakeOk(c, s, id);
    FailHandshakeOk(c, Disconnect(s), id);
  }

  lemma ConnectResponseOk(c: Config, s: State, successful: bool)
    requires CallsOk(s)
    ensures Advances(s, Left(ConnectResponse(c, s, successful)))
  {
    FailConnectOk(c, s.(connected := successful));
    DisconnectOk(s.(connected := successful), 0);
  }

  lemma FlushOk(c: Config, s: State)
    requires CallsOk(s)
    ensures Advances(s, FlushBatch(c, s))
  {
    ForgetConsistent(c, s.calls, s.queue);
  }

  lemma HandshakeSucceededOk(c: Config, s: State, id: nat, clientId: Option<string>, negotiates: bool)
    requires CallsOk(s)
    ensures Advances(s, Left(HandshakeSucceeded(c, s, id, clientId, negotiates)))
  {
    var s1 := s.(clientId := clientId);
    if s.transport && negotiates {
      var s2 := FlushBatch(c, s1.(internalBatch := false));
      FlushOk(c, s1.(internalBatch := false));
      AcknowledgeOk(s2, id);
      ProceedOk(Acknowledge(s2, id));
    } else {
      DisconnectOk(s1, id);
    }
  }

  lemma ProceedOk(s: State)
    requires CallsOk(s)
    ensures Advances(s, Left(Proceed(s)))
  {
    DisconnectOk(s, 0);
  }

  lemma HandshakeOk(c: Config, s: State, hasCallback: bool, negotiates: bool)
    requires CallsOk(s)
    ensures Advances(s, Left(Handshake(c, s, hasCallback, negotiates)))
  {
    var t := Callbacks.Register(s.calls, hasCallback);
    Callbacks.NextConsistent(s.calls, Callbacks.Registered(hasCallback));
    ForgetConsistent(c, t, [Message(t.messageId, MetaHandshake, None)]);
  }

  lemma ConnectOk(c: Config, s: State)
    requires CallsOk(s)
    ensures Advances(s, Connect(c, s))
  {
    var t := Callbacks.Register(s.calls, false);
    Callbacks.NextConsistent(s.calls, Callbacks.Registered(false));
    ForgetConsistent(c, t, [Message(t.messageId, MetaConnect, None)]);
  }

  lemma StopOk(c: Config, s: State, hasCallback: bool)
    requires CallsOk(s)
    ensures Advances(s, StopSession(c, s, hasCallback))
  {
    var t := Callbacks.Register(s.calls, hasCallback);
    Callbacks.NextConsistent(s.calls, Callbacks.Registered(hasCallback));
    ForgetConsistent(c, t, [Message(t.messageId, MetaDisconnect, None)]);
  }

  lemma TimerOk(c: Config, s: State, e: Event)
    requires CallsOk(s) && Enabled(s, e) && e.TimerFires?
    ensures Advances(s, After(c, s, e))
  {
    var s1 := s.(scheduled := None);
    if s.scheduled.value.operation.SendConnect? {
      ConnectOk(c, s1);
    } else {
      HandshakeOk(c, s1, s.handshakeCallback, e.negotiates);
    }
  }

  lemma SubmitOk(c: Config, s: State, m: Message)
    requires CallsOk(s)
    ensures Advances(s, SubmitNumbered(c, s, m))
  {
    ForgetConsistent(c, s.calls, [m]);
  }

  lemma AppSubmitOk(c: Config, s: State, kind: Kind, hasCallback: bool)
    requires CallsOk(s)
    ensures Advances(s, Submit(c, s, kind, hasCallback))
  {
    if !IsDisconnected(s) {
      Callbacks.NextConsistent(s.calls, Callbacks.Registered(hasCallback));
      var (s1, m) := Numbered(s, kind, hasCallback);
      SubmitOk(c, s1, m);
    }
  }

  lemma AppRemoteCallOk(c: Config, s: State, notifies: bool, timed: bool)
    requires CallsOk(s)
    ensures Advances(s, SubmitRemoteCall(c, s, notifies, timed))
  {
    if !IsDisconnected(s) {
      Callbacks.NextConsistent(s.calls, Callbacks.RemoteRegistered(notifies, timed));
      var t := Callbacks.RegisterRemote(s.calls, notifies, timed);
      SubmitOk(c, s.(calls := t), Message(t.messageId, RemoteCall, None));
    }
  }

  lemma SubmissionOk(c: Config, s: State, e: Event)
    requires CallsOk(s) && Enabled(s, e) && Submits(e)
    ensures Advances(s, After(c, s, e))
  {
    match e
    case AppSubmit(kind, hasCallback) => AppSubmitOk(c, s, kind, hasCallback);
    case AppRemoteCall(notifies, timed) => AppRemoteCallOk(c, s, notifies, timed);
    case AppStartBatch =>
    case AppEndBatch => EndBatchOk(c, s);
    case RemoteCallTimer(id) => Callbacks.NextConsistent(s.calls, Callbacks.TimerFired(id));
  }

  lemma EndBatchOk(c: Config, s: State)
    requires CallsOk(s) && s.batch > 0
    ensures Advances(s, EndBatch(c, s))
  {
    FlushOk(c, s.(batch := s.batch - 1));
  }

  lemma ApplicationReportedOk(s: State, m: Message, v: Verdict)
    requires CallsOk(s)
    ensures Advances(s, ApplicationReported(s, m, v))
  {
    Callbacks.NextConsistent(s.calls, Callbacks.RemoteReplied(m.id));
    Callbacks.NextConsistent(s.calls, Callbacks.Acknowledged(m.id));
    Callbacks.NextConsistent(s.calls, Callbacks.MessageFailed(m.id));
  }

  lemma HandshakeReplyOk(c: Config, s: State, e: Event)
    requires CallsOk(s) && Enabled(s, e) && e.HandshakeReply?
    ensures Advances(s, After(c, s, e))
  {
    var s1 := UpdateAdvice(Landed(s, e.m), e.newAdvice);
    if e.successful {
      HandshakeSucceededOk(c, s1, e.m.id, Some(e.clientId), e.negotiates);
    } else {
      FailHandshakeOk(c, s1, e.m.id);
    }
  }

  lemma ConnectReportOk(c: Config, s: State, e: Event)
    requires CallsOk(s) && Enabled(s, e) && (e.ConnectReply? || e.ConnectLost?)
    ensures Advances(s, After(c, s, e))
  {
    var s0 := Landed(s, e.m);
    if e.ConnectReply? {
      ConnectResponseOk(c, UpdateAdvice(s0, e.newAdvice), e.successful);
    } else {
      FailConnectOk(c, s0.(connected := false));
    }
  }

  lemma ReportOk(c: Config, s: State, e: Event)
    requires CallsOk(s) && Enabled(s, e) && Reports(e)
    ensures Advances(s, After(c, s, e))
  {
    var s0 := Landed(s, e.m);
    match e
    case HandshakeReply(_, _, _, _, _) => HandshakeReplyOk(c, s, e);
    case HandshakeLost(m, negotiates) => HandshakeFailedOk(c, s0, m.id, negotiates);
    case ConnectReply(_, _, _) => ConnectReportOk(c, s, e);
    case ConnectLost(_) => ConnectReportOk(c, s, e);
    case DisconnectReply(m, newAdvice) => DisconnectOk(UpdateAdvice(s0, newAdvice), m.id);
    case ApplicationReply(m, verdict, newAdvice) => ApplicationReportedOk(UpdateAdvice(s0, newAdvice), m, verdict);
    case Unanswered(m) =>
  }

  lemma StepOk(c: Config, s: State, e: Event)
    requires CallsOk(s) && Enabled(s, e)
    ensures Advances(s, After(c, s, e))
  {
    if Reports(e) {
      ReportOk(c, s, e);
    } else if Submits(e) {
      SubmissionOk(c, s, e);
    } else if e.AppHandshake? {
      HandshakeOk(c, s.(status := Disconnected), e.hasCallback, e.negotiates);
    } else if e.TimerFires? {
      TimerOk(c, s, e);
    } else {
      StopOk(c, s, e.hasCallback);
    }
  }

  /** In every run of the client, though application messages and disconnections may be reported repeatedly,
      no callback fires twice, and a remote call with a callback is either waiting or has called back. */
  lemma {:induction false} SessionCallbacksFireOnce(c: Config, states: seq<State>, events: seq<Event>, i: nat)
    requires IsRun(c, states, events) && i <= |events|
    ensures CallsOk(states[i])
    ensures forall id: nat :: multiset(states[i].calls.fired)[id] <= 1
  {
    if i > 0 {
      SessionCallbacksFireOnce(c, states, events, i - 1);
      assert states[i - 1 + 1] == After(c, states[i - 1], events[i - 1]);
      StepOk(c, states[i - 1], events[i - 1]);
    }
    forall id: nat ensures multiset(states[i].calls.fired)[id] <= 1 {
      Callbacks.NoRepeatsCount(states[i].calls.fired, id);
    }
  }

  /** Its timeout, its data or its refusal. */
  predicate Concludes(e: Event, id: nat) {
    || e == RemoteCallTimer(id)
    || (e.ApplicationReply? && e.m.id == id && e.m.kind.RemoteCall? && (e.verdict.Data? || e.verdict.Refused?))
  }

  lemma TimeoutFires(t: Callbacks.Table, id: nat)
    requires Callbacks.Consistent(t) && id in t.awaited
    ensures id in Callbacks.TimeOut(t, id).fired && id in Callbacks.FailMessage(t, id).fired
    ensures id in Callbacks.HandleRemoteCall(t, id).fired
  {
  }

  lemma ConcludedFires(c: Config, s: State, e: Event, id: nat)
    requires CallsOk(s) && Enabled(s, e) && id in s.calls.awaited && Concludes(e, id)
    ensures id in After(c, s, e).calls.fired
  {
    TimeoutFires(s.calls, id);
  }

  lemma EventAdvances(c: Config, states: seq<State>, events: seq<Event>, i: nat)
    requires IsRun(c, states, events) && i < |events|
    ensures Advances(states[i], states[i + 1])
  {
    SessionCallbacksFireOnce(c, states, events, i);
    StepOk(c, states[i], events[i]);
  }

  lemma {:induction false} FiredStays(c: Config, states: seq<State>, events: seq<Event>, i: nat, j: nat, id: nat)
    requires IsRun(c, states, events) && i <= j <= |events| && id in states[i].calls.fired
    ensures id in states[j].calls.fired
  {
    if i < j {
      FiredStays(c, states, events, i, j - 1, id);
      EventAdvances(c, states, events, j - 1);
    }
  }

  /** In every run of the client, once the timeout, the data or the refusal of a remote call is handled its callback has
      fired exactly once, for the rest of the run, whatever is reported later. */
  lemma RemoteCallsFireOnce(c: Config, states: seq<State>, events: seq<Event>, i: nat, j: nat, id: nat)
    requires IsRun(c, states, events) && i < j <= |events|
    requires id in states[i].calls.awaited && Concludes(events[i], id)
    ensures multiset(states[j].calls.fired)[id] == 1
  {
    SessionCallbacksFireOnce(c, states, events, i);
    SessionCallbacksFireOnce(c, states, events, j);
    ConcludedFires(c, states[i], events[i], id);
    assert states[i + 1] == After(c, states[i], events[i]);
    FiredStays(c, states, events, i + 1, j, id);
    Callbacks.NoRepeatsCount(states[j].calls.fired, id);
  }

  // ------------------------------------------------------------------------- the retry loop

  /** A client that is not disconnected has its next operation scheduled or in flight. */
  predicate Live(s: State) {
    IsDisconnected(s) || s.scheduled.Some? || HasOperation(s.inFlight)
  }

  /** No throw, no handshake or /meta/connect left unanswered, none dropped by an extension. */
  predicate Orderly(c: Config, s: State, e: Event)
    requires Enabled(s, e)
  {
    && Step(c, s, e).Ok?
    && (e.Unanswered? ==> !IsOperation(e.m.kind))
    && (e.AppHandshake? || e.TimerFires? ==> c.passes(s.calls.messageId + 1))
  }

  lemma NewOperationLives(c: Config, s: State, m: Message)
    requires IsOperation(m.kind) && c.passes(m.id)
    ensures HasOperation(Send(c, s, [m]).inFlight)
  {
    SendOne(c, s, m);
    assert Stamp(m, s.clientId) in Send(c, s, [m]).inFlight;
  }

  lemma HandshakeSucceededLive(c: Config, s: State, id: nat, clientId: Option<string>, negotiates: bool)
    requires HandshakeSucceeded(c, s, id, clientId, negotiates).Ok?
    ensures Live(HandshakeSucceeded(c, s, id, clientId, negotiates).value)
  {
  }

  lemma ResponsesLive(c: Config, s: State, id: nat, negotiates: bool, successful: bool)
    ensures ConnectResponse(c, s, successful).Ok? ==> Live(ConnectResponse(c, s, successful).value)
    ensures HandshakeFailed(c, s, id, negotiates).Ok? ==> Live(HandshakeFailed(c, s, id, negotiates).value)
  {
  }

  lemma AppRemoteCallLive(c: Config, s: State, notifies: bool, timed: bool)
    requires Live(s)
    ensures Live(SubmitRemoteCall(c, s, notifies, timed))
  {
    var t := Callbacks.RegisterRemote(s.calls, notifies, timed);
    var m := Message(t.messageId, RemoteCall, None);
    SendApplications(c, s.(calls := t, submitted := s.submitted + [m.id]), [m]);
  }

  lemma SubmissionLive(c: Config, s: State, e: Event)
    requires Live(s) && QueueOk(s) && Enabled(s, e) && Submits(e)
    ensures Live(After(c, s, e))
  {
    match e
    case AppSubmit(kind, hasCallback) =>
    case AppRemoteCall(notifies, timed) => AppRemoteCallLive(c, s, notifies, timed);
    case AppStartBatch =>
    case AppEndBatch =>
      FlushKeepsOperations(c, s.(batch := s.batch - 1));
    case RemoteCallTimer(id) =>
  }

  lemma ReportLive(c: Config, s: State, e: Event)
    requires Live(s) && Enabled(s, e) && Reports(e) && Orderly(c, s, e)
    ensures Live(After(c, s, e))
  {
    var s0 := Landed(s, e.m);
    match e
    case HandshakeReply(m, successful, clientId, negotiates, newAdvice) =>
      if successful {
        HandshakeSucceededLive(c, UpdateAdvice(s0, newAdvice), m.id, Some(clientId), negotiates);
      }
    case HandshakeLost(m, negotiates) => ResponsesLive(c, s0, m.id, negotiates, true);
    case ConnectReply(m, successful, newAdvice) =>
      ResponsesLive(c, UpdateAdvice(s0, newAdvice), m.id, true, successful);
    case ConnectLost(m) =>
    case DisconnectReply(m, newAdvice) =>
    case ApplicationReply(m, verdict, newAdvice) =>
    case Unanswered(m) =>
  }

  lemma StepLive(c: Config, s: State, e: Event)
    requires Live(s) && QueueOk(s) && Enabled(s, e) && Orderly(c, s, e)
    ensures Live(After(c, s, e))
  {
    if Reports(e) {
      ReportLive(c, s, e);
    } else if Submits(e) {
      SubmissionLive(c, s, e);
    }
  }

  /** In an orderly run the loop never stalls: with OneOperationAtATime, a client that is not disconnected has
      exactly one operation scheduled or in flight. */
  lemma {:induction false} RetryLoopNeverStalls(c: Config, states: seq<State>, events: seq<Event>, i: nat)
    requires IsRun(c, states, events) && i <= |events|
    requires forall j | 0 <= j < i :: Orderly(c, states[j], events[j])
    ensures Live(states[i])
  {
    if i > 0 {
      RetryLoopNeverStalls(c, states, events, i - 1);
      OneOperationAtATime(c, states, events, i - 1);
      assert states[i - 1 + 1] == After(c, states[i - 1], events[i - 1]);
      StepLive(c, states[i - 1], events[i - 1]);
    }
  }

  // ------------------------------------------------------------------------- what throws

  lemma HandshakeThrows(c: Config, s: State, hasCallback: bool, negotiates: bool)
    ensures Handshake(c, s, hasCallback, negotiates).Err? <==> !s.transport && !negotiates
  {
  }

  lemma SuccessThrows(c: Config, s: State, id: nat, clientId: Option<string>, negotiates: bool)
    ensures HandshakeSucceeded(c, s, id, clientId, negotiates).Err? <==>
              !s.transport ||
              (negotiates && !IsDisconnected(s) && !s.advice.reconnect.Retry? && !s.advice.reconnect.NoReconnect?)
  {
    FlushKeepsMode(c, s.(clientId := clientId, internalBatch := false));
  }

  lemma HandshakeFailedThrows(c: Config, s: State, id: nat, negotiates: bool)
    ensures HandshakeFailed(c, s, id, negotiates).Err? <==> !s.transport
  {
  }

  lemma FailConnectThrows(c: Config, s: State)
    ensures FailConnect(c, s).Err? <==> !IsDisconnected(s) && s.advice.reconnect.Unrecognized?
  {
  }

  lemma ConnectResponseThrows(c: Config, s: State, successful: bool)
    ensures ConnectResponse(c, s, successful).Err? <==>
              && !IsDisconnected(s)
              && (s.advice.reconnect.Unrecognized? || (successful && s.advice.reconnect.Rehandshake?))
  {
  }

  /** The steps that throw: a handshake with no transport to use, a handshake report after a disconnection dropped
      the transport, and advice that the reply cannot follow. */
  lemma StepThrowsExactlyWhen(c: Config, s: State, e: Event)
    requires Enabled(s, e)
    ensures Step(c, s, e).Err? <==> ThrowsOnHandshake(s, e) || ThrowsOnAdvice(s, e)
  {
    match e
    case AppHandshake(hasCallback, negotiates) =>
      HandshakeThrows(c, s.(status := Disconnected), hasCallback, negotiates);
    case TimerFires(negotiates) => HandshakeThrows(c, s.(scheduled := None), s.handshakeCallback, negotiates);
    case HandshakeReply(_, _, _, _, _) => HandshakeReplyThrows(c, s, e);
    case HandshakeLost(m, negotiates) => HandshakeFailedThrows(c, Landed(s, m), m.id, negotiates);
    case ConnectReply(_, _, _) => ConnectReplyThrows(c, s, e);
    case ConnectLost(m) => FailConnectThrows(c, Landed(s, m).(connected := false));
    case _ =>
  }

  lemma HandshakeReplyThrows(c: Config, s: State, e: Event)
    requires Enabled(s, e) && e.HandshakeReply?
    ensures Step(c, s, e).Err? <==> ThrowsOnHandshake(s, e) || ThrowsOnAdvice(s, e)
  {
    SuccessThrows(c, UpdateAdvice(Landed(s, e.m), e.newAdvice), e.m.id, Some(e.clientId), e.negotiates);
  }

  lemma ConnectReplyThrows(c: Config, s: State, e: Event)
    requires Enabled(s, e) && e.ConnectReply?
    ensures Step(c, s, e).Err? <==> ThrowsOnHandshake(s, e) || ThrowsOnAdvice(s, e)
  {
    ConnectResponseThrows(c, UpdateAdvice(Landed(s, e.m), e.newAdvice), e.successful);
  }

  lemma FlushKeepsMode(c: Config, s: State)
    ensures FlushBatch(c, s).status == s.status && FlushBatch(c, s).advice == s.advice
  {
  }

  predicate ThrowsOnHandshake(s: State, e: Event)
    requires Enabled(s, e)
  {
    match e
    case AppHandshake(_, negotiates) => !s.transport && !negotiates
    case TimerFires(negotiates) => s.scheduled.value.operation.SendHandshake? && !s.transport && !negotiates
    case HandshakeReply(_, successful, _, _, _) => successful && !s.transport
    case HandshakeLost(_, _) => !s.transport
    case _ => false
  }

  predicate ThrowsOnAdvice(s: State, e: Event) {
    !IsDisconnected(s) &&
    match e
    case HandshakeReply(_, successful, _, negotiates, newAdvice) =>
      var r := UpdateAdvice(s, newAdvice).advice.reconnect;
      successful && s.transport && negotiates && (r.Rehandshake? || r.Unrecognized?)
    case ConnectReply(_, successful, newAdvice) =>
      var r := UpdateAdvice(s, newAdvice).advice.reconnect;
      r.Unrecognized? || (successful && r.Rehandshake?)
    case ConnectLost(_) => s.advice.reconnect.Unrecognized?
    case _ => false
  }
}
