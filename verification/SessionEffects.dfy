/** What each event makes the client send: at once, later, or not at all, and in whose name. */
module SessionEffects {
  import opened Wrappers
  import opened BayeuxSession
  import opened SessionSafety
  import opened SessionOrder
  import opened SessionProgress
  import opened SessionProtocol
  import Callbacks

  /** The messages of ms that the extensions pass, in order, each with its id and kind and the client id. */
  function InNameOf(c: Config, clientId: Option<string>, ms: seq<Message>): seq<Message> {
    if ms == [] then []
    else
      var n := |ms| - 1;
      InNameOf(c, clientId, ms[..n]) +
        if c.passes(ms[n].id) then [Message(ms[n].id, ms[n].kind, clientId)] else []
  }

  lemma {:induction false} OutgoingAppend(c: Config, clientId: Option<string>, a: seq<Message>, b: seq<Message>)
    ensures Outgoing(c, clientId, a + b) == Outgoing(c, clientId, a) + Outgoing(c, clientId, b)
  {
    if a == [] {
      assert a + b == b;
    } else {
      OutgoingAppend(c, clientId, a[1..], b);
      assert (a + b)[0] == a[0] && (a + b)[1..] == a[1..] + b;
    }
  }

  lemma {:induction false} OutgoingInName(c: Config, clientId: Option<string>, ms: seq<Message>)
    requires clientId.Some? || forall m | m in ms :: m.clientId == None
    ensures Outgoing(c, clientId, ms) == InNameOf(c, clientId, ms)
  {
    if ms != [] {
      var n := |ms| - 1;
      OutgoingInName(c, clientId, ms[..n]);
      OutgoingAppend(c, clientId, ms[..n], [ms[n]]);
      assert ms == ms[..n] + [ms[n]] && [ms[n]][1..] == [];
    }
  }

  lemma InNameOfOne(c: Config, clientId: Option<string>, m: Message)
    ensures InNameOf(c, clientId, [m]) == if c.passes(m.id) then [Message(m.id, m.kind, clientId)] else []
  {
    assert [m][..0] == [];
  }

  /** t has sent these messages, and delivered them if they are of the application. */
  ghost predicate Sends(s: State, t: State, kept: set<Message>, out: seq<Message>) {
    t.inFlight == kept + AsSet(out) && t.delivered == s.delivered + Applications(out)
  }

  /** Nothing but messages, their order of sending and their callbacks differs. */
  ghost predicate SameSession(s: State, t: State) {
    && t.status == s.status && t.transport == s.transport && t.clientId == s.clientId && t.batch == s.batch
    && t.internalBatch == s.internalBatch && t.backoff == s.backoff && t.scheduled == s.scheduled
    && t.advice == s.advice && t.handshakeCallback == s.handshakeCallback && t.connected == s.connected
  }

  lemma SendIs(c: Config, s: State, ms: seq<Message>)
    requires s.clientId.Some? || forall m | m in ms :: m.clientId == None
    ensures Sends(s, Send(c, s, ms), s.inFlight, InNameOf(c, s.clientId, ms)) && SameSession(s, Send(c, s, ms))
    ensures Send(c, s, ms).queue == s.queue && Send(c, s, ms).submitted == s.submitted
  {
    OutgoingInName(c, s.clientId, ms);
  }

  lemma FlushIs(c: Config, s: State)
    requires s.clientId.Some? && QueueOk(s)
    ensures var t := FlushBatch(c, s);
            && t.queue == [] && SameSession(s, t) && Sends(s, t, s.inFlight, InNameOf(c, s.clientId, s.queue))
            && t.delivered == s.delivered + InNameOf(c, s.clientId, s.queue)
  {
    if s.queue == [] {
      assert AsSet([]) == {} && s.delivered + [] == s.delivered;
    } else {
      SendIs(c, s.(queue := []), s.queue);
    }
    OutgoingInName(c, s.clientId, s.queue);
    forall m | m in Outgoing(c, s.clientId, s.queue) ensures IsApplication(m.kind) {
      OutgoingElems(c, s.clientId, s.queue, m);
    }
    AllApplications(InNameOf(c, s.clientId, s.queue));
  }

  // -------------------------------------------------------------------------------- submissions

  /** A message submitted under a fresh id: sent at once, or at the end of the queue. */
  ghost predicate Submitted(c: Config, s: State, t: State, kind: Kind) {
    var id := s.calls.messageId + 1;
    && SameSession(s, t) && t.submitted == s.submitted + [id] && t.calls.messageId == id
    && if s.batch == 0 && !s.internalBatch then
         var out := if c.passes(id) then [Message(id, kind, s.clientId)] else [];
         t.queue == s.queue && t.delivered == s.delivered + out && t.inFlight == s.inFlight + AsSet(out)
       else
         t.queue == s.queue + [Message(id, kind, None)] && t.delivered == s.delivered && t.inFlight == s.inFlight
  }

  lemma SubmitNumberedIs(c: Config, s: State, id: nat, kind: Kind)
    requires IsApplication(kind)
    ensures var m := Message(id, kind, None);
            var t := SubmitNumbered(c, s, m);
            var out := if s.batch == 0 && !s.internalBatch && c.passes(id) then [Message(id, kind, s.clientId)] else [];
            && SameSession(s, t) && t.submitted == s.submitted + [id] && t.calls.messageId == s.calls.messageId
            && t.delivered == s.delivered + out && t.inFlight == s.inFlight + AsSet(out)
            && t.queue == (if s.batch == 0 && !s.internalBatch then s.queue else s.queue + [m])
  {
    var m := Message(id, kind, None);
    var s1 := s.(submitted := s.submitted + [id]);
    if s.batch == 0 && !s.internalBatch {
      SendIs(c, s1, [m]);
      ForgetKeepsId(c, s.calls, [m]);
      InNameOfOne(c, s.clientId, m);
      AllApplications(InNameOf(c, s.clientId, [m]));
    } else {
      assert s.delivered + [] == s.delivered && AsSet([]) == {};
    }
  }

  /** publish, subscribe and unsubscribe, and a remote call: refused on a disconnected client, otherwise submitted. */
  lemma SubmissionIs(c: Config, s: State, e: Event)
    requires Enabled(s, e) && (e.AppSubmit? || e.AppRemoteCall?)
    ensures if IsDisconnected(s) then After(c, s, e) == s
            else Submitted(c, s, After(c, s, e), if e.AppSubmit? then e.kind else RemoteCall)
  {
    if !IsDisconnected(s) {
      var kind := if e.AppSubmit? then e.kind else RemoteCall;
      var t := if e.AppSubmit? then Callbacks.Register(s.calls, e.hasCallback)
               else Callbacks.RegisterRemote(s.calls, e.notifies, e.timed);
      SubmitNumberedIs(c, s.(calls := t), s.calls.messageId + 1, kind);
      assert After(c, s, e) == SubmitNumbered(c, s.(calls := t), Message(s.calls.messageId + 1, kind, None));
    }
  }

  /** In every orderly run, a message submitted outside batches, while no handshake is scheduled or in flight, leaves at
      once: the queue is empty, and if the extensions pass it, just this message of just this kind reaches the
      transport, in the name of the client. While a handshake is pending, or in a batch, it waits, and nothing reaches
      the transport. */
  lemma SubmissionsLeaveExactlyWhen(c: Config, states: seq<State>, events: seq<Event>, i: nat)
    requires IsRun(c, states, events) && i < |events| && (events[i].AppSubmit? || events[i].AppRemoteCall?)
    requires forall j | 0 <= j < i :: Orderly(c, states[j], events[j])
    requires !IsDisconnected(states[i])
    ensures var s, t := states[i], states[i + 1];
            var id, kind := s.calls.messageId + 1, if events[i].AppSubmit? then events[i].kind else RemoteCall;
            if s.batch == 0 && !HandshakePending(s) then
              && s.clientId.Some? && t.queue == []
              && t.delivered == s.delivered + if c.passes(id) then [Message(id, kind, s.clientId)] else []
            else t.queue == s.queue + [Message(id, kind, None)] && t.delivered == s.delivered
  {
    SubmissionIs(c, states[i], events[i]);
    StatusTellsPhase(c, states, events, i);
    NothingUnidentifiedIsSent(c, states, events, i);
  }

  // ------------------------------------------------------------------------------------ batches

  lemma EndBatchIs(c: Config, s: State)
    requires s.batch > 0 && QueueOk(s) && Identified(s)
    ensures var t := After(c, s, AppEndBatch);
            && SameSession(s.(batch := s.batch - 1), t)
            && if s.batch == 1 && !IsDisconnected(s) && !s.internalBatch then
                 t.queue == [] && Sends(s, t, s.inFlight, InNameOf(c, s.clientId, s.queue))
                 && t.delivered == s.delivered + InNameOf(c, s.clientId, s.queue)
               else t == s.(batch := s.batch - 1)
  {
    if s.batch == 1 && !IsDisconnected(s) && !s.internalBatch {
      FlushIs(c, s.(batch := 0));
    }
  }

  /** In every orderly run, ending the outermost batch sends all that waits, in order, in the name of the client, unless
      a handshake is pending; ending an inner batch sends nothing. */
  lemma BatchesLeaveExactlyWhen(c: Config, states: seq<State>, events: seq<Event>, i: nat)
    requires IsRun(c, states, events) && i < |events| && events[i].AppEndBatch?
    requires forall j | 0 <= j < i :: Orderly(c, states[j], events[j])
    ensures var s, t := states[i], states[i + 1];
            && t.batch == s.batch - 1
            && if t.batch == 0 && !IsDisconnected(s) && !HandshakePending(s) then
                 s.clientId.Some? && t.queue == [] && t.delivered == s.delivered + InNameOf(c, s.clientId, s.queue)
               else t.queue == s.queue && t.delivered == s.delivered && t.inFlight == s.inFlight
  {
    OneOperationAtATime(c, states, events, i);
    NothingUnidentifiedIsSent(c, states, events, i);
    StatusTellsPhase(c, states, events, i);
    EndBatchIs(c, states[i]);
  }

  lemma StartBatchIs(c: Config, s: State)
    ensures After(c, s, AppStartBatch) == s.(batch := s.batch + 1)
  {
  }

  /** An accepted handshake sends all that waited for it, in the name it brings. */
  lemma AcceptanceFlushes(c: Config, s: State, e: Event)
    requires Enabled(s, e) && e.HandshakeReply? && e.successful && e.negotiates && s.transport && QueueOk(s)
    ensures var t := After(c, s, e);
            var out := InNameOf(c, Some(e.clientId), s.queue);
            && t.queue == [] && t.delivered == s.delivered + out && t.inFlight == (s.inFlight - {e.m}) + AsSet(out)
            && t.advice == AdviceThen(s, e)
  {
    var s1 := UpdateAdvice(Landed(s, e.m), e.newAdvice);
    SucceededFlushes(c, s1, e.m.id, e.clientId);
    assert After(c, s, e) == Left(HandshakeSucceeded(c, s1, e.m.id, Some(e.clientId), true));
  }

  lemma SucceededFlushes(c: Config, s: State, id: nat, clientId: string)
    requires s.transport && QueueOk(s)
    ensures var t := Left(HandshakeSucceeded(c, s, id, Some(clientId), true));
            var out := InNameOf(c, Some(clientId), s.queue);
            && t.queue == [] && t.delivered == s.delivered + out && t.inFlight == s.inFlight + AsSet(out)
            && t.advice == s.advice
  {
    var s1 := s.(clientId := Some(clientId), internalBatch := false);
    FlushIs(c, s1);
    ProceedSends(Acknowledge(FlushBatch(c, s1), id));
  }

  lemma ProceedSends(s: State)
    requires s.queue == []
    ensures var t := Left(Proceed(s));
            t.delivered == s.delivered && t.inFlight == s.inFlight && t.queue == [] && t.advice == s.advice
  {
  }

  // --------------------------------------------------------------------------- operations sent

  /** One new message in flight, of this kind and in this name, if the extensions pass it. */
  ghost predicate Launches(c: Config, s: State, t: State, kind: Kind, clientId: Option<string>) {
    var id := s.calls.messageId + 1;
    && t.inFlight == s.inFlight + (if c.passes(id) then {Message(id, kind, clientId)} else {})
    && t.delivered == s.delivered && t.queue == s.queue && t.submitted == s.submitted && t.calls.messageId == id
  }

  lemma SendMetaIs(c: Config, s: State, kind: Kind)
    requires !IsApplication(kind)
    ensures var m := Message(s.calls.messageId, kind, None);
            var t := Send(c, s, [m]);
            && t.inFlight == s.inFlight + (if c.passes(m.id) then {Message(m.id, kind, s.clientId)} else {})
            && t.delivered == s.delivered && t.queue == s.queue && t.submitted == s.submitted
            && t.calls.messageId == s.calls.messageId && SameSession(s, t)
  {
    var m := Message(s.calls.messageId, kind, None);
    SendIs(c, s, [m]);
    InNameOfOne(c, s.clientId, m);
    ForgetKeepsId(c, s.calls, [m]);
    assert Applications(InNameOf(c, s.clientId, [m])) == [];
    assert s.delivered + [] == s.delivered;
  }

  lemma HandshakeIs(c: Config, s: State, hasCallback: bool, negotiates: bool)
    ensures var r := Handshake(c, s, hasCallback, negotiates);
            var t := Left(r);
            && (r.Err? <==> !s.transport && !negotiates)
            && t.clientId == None && t.batch == 0 && t.internalBatch && t.handshakeCallback == hasCallback
            && t.scheduled == s.scheduled && t.backoff == s.backoff && t.connected == s.connected
            && t.advice == (if IsDisconnected(s) then c.advice else s.advice.(reconnect := Retry))
            && (r.Ok? ==> t.transport && t.status == Handshaking && Launches(c, s, t, MetaHandshake, None))
            && (r.Err? ==> t.status == s.status && t.inFlight == s.inFlight && t.delivered == s.delivered)
  {
    var s1 := s.(clientId := None,
                 advice := if IsDisconnected(s) then c.advice else s.advice.(reconnect := Retry),
                 batch := 0, internalBatch := true, handshakeCallback := hasCallback);
    var (s2, m) := Numbered(s1, MetaHandshake, hasCallback);
    SendMetaIs(c, s2.(transport := true, status := Handshaking), MetaHandshake);
  }

  /** Starting a session, and retrying its handshake, forget the client id, turn the internal batch on and send a
      handshake in nobody's name, with fresh advice, or on a retry with that so far; they throw without a transport. */
  lemma HandshakesStart(c: Config, s: State, e: Event)
    requires Enabled(s, e)
    requires e.AppHandshake? || (e.TimerFires? && s.scheduled.value.operation == SendHandshake)
    ensures var t := After(c, s, e);
            var retry := e.TimerFires? && !IsDisconnected(s);
            && (Step(c, s, e).Err? <==> !s.transport && !e.negotiates)
            && t.clientId == None && t.batch == 0 && t.internalBatch && t.scheduled == None && t.backoff == s.backoff
            && t.handshakeCallback == (if e.AppHandshake? then e.hasCallback else s.handshakeCallback)
            && t.advice == (if retry then s.advice.(reconnect := Retry) else c.advice)
            && (Step(c, s, e).Ok? ==>
                  t.transport && t.status == Handshaking && Launches(c, s, t, MetaHandshake, None))
  {
    if e.AppHandshake? {
      HandshakeIs(c, s.(status := Disconnected), e.hasCallback, e.negotiates);
    } else {
      HandshakeIs(c, s.(scheduled := None), s.handshakeCallback, e.negotiates);
    }
  }

  /** The time to connect sends a /meta/connect in the name of the client, and nothing if it has disconnected since. */
  lemma ConnectsStart(c: Config, s: State, e: Event)
    requires Enabled(s, e) && e.TimerFires? && s.scheduled.value.operation == SendConnect
    ensures var t := After(c, s, e);
            if IsDisconnected(s) then t == s.(scheduled := None)
            else
              && Launches(c, s, t, MetaConnect, s.clientId)
              && SameSession(s.(scheduled := None, status := Connected), t)
  {
    if !IsDisconnected(s) {
      var (s1, m) := Numbered(s.(scheduled := None), MetaConnect, false);
      SendMetaIs(c, s1.(status := Connecting), MetaConnect);
    }
  }

  /** disconnect() sends a /meta/disconnect in the name of the client and waits for its answer; a second one does
      nothing. */
  lemma DisconnectsStart(c: Config, s: State, hasCallback: bool)
    ensures var t := After(c, s, AppDisconnect(hasCallback));
            if IsDisconnected(s) then t == s
            else Launches(c, s, t, MetaDisconnect, s.clientId) && SameSession(s.(status := Disconnecting), t)
  {
    if !IsDisconnected(s) {
      var (s1, m) := Numbered(s, MetaDisconnect, hasCallback);
      SendMetaIs(c, s1.(status := Disconnecting), MetaDisconnect);
    }
  }

  // ------------------------------------------------------------------------------ other reports

  /** The message reported is in flight no longer, its advice is taken, and nothing is sent. */
  ghost predicate OnlyLands(s: State, e: Event, t: State)
    requires Reports(e)
  {
    t.inFlight == s.inFlight - {e.m} && t.delivered == s.delivered && t.advice == AdviceThen(s, e)
  }

  lemma HandshakeReplySendsNothing(c: Config, s: State, e: Event)
    requires Enabled(s, e) && e.HandshakeReply? && !(e.successful && e.negotiates && s.transport)
    ensures OnlyLands(s, e, After(c, s, e))
  {
    var s1 := UpdateAdvice(Landed(s, e.m), e.newAdvice);
    if !e.successful {
      FailHandshakeIsQuiet(c, s1, e.m.id);
      FailHandshakeDelivers(c, s1, e.m.id);
      FailHandshakeAdvice(c, s1, e.m.id);
    }
  }

  lemma ConnectReportSendsNothing(c: Config, s: State, e: Event)
    requires Enabled(s, e) && (e.ConnectReply? || e.ConnectLost?)
    ensures OnlyLands(s, e, After(c, s, e))
  {
    if e.ConnectReply? {
      ConnectSendsNothing(c, UpdateAdvice(Landed(s, e.m), e.newAdvice), e.m.id, e.successful);
    } else {
      var s1 := Landed(s, e.m).(connected := false);
      FailConnectIsQuiet(c, s1);
      FailConnectDelivers(c, s1);
      assert Left(FailConnect(c, s1)).advice == s1.advice;
    }
  }

  /** Whatever the transport reports, nothing is sent but what an accepted handshake lets go. */
  lemma ReportsSendNothing(c: Config, s: State, e: Event)
    requires Enabled(s, e) && Reports(e)
    requires e.HandshakeReply? ==> !(e.successful && e.negotiates && s.transport)
    ensures OnlyLands(s, e, After(c, s, e))
  {
    match e
    case HandshakeReply(_, _, _, _, _) => HandshakeReplySendsNothing(c, s, e);
    case HandshakeLost(m, negotiates) => LostHandshakeSendsNothing(c, Landed(s, m), m.id, negotiates);
    case ConnectReply(_, _, _) => ConnectReportSendsNothing(c, s, e);
    case ConnectLost(_) => ConnectReportSendsNothing(c, s, e);
    case DisconnectReply(_, _) =>
    case ApplicationReply(_, _, _) =>
    case Unanswered(_) =>
  }

  lemma FailHandshakeAdvice(c: Config, s: State, id: nat)
    ensures FailHandshake(c, s, id).advice == s.advice
  {
  }

  lemma LostHandshakeSendsNothing(c: Config, s: State, id: nat, negotiates: bool)
    ensures var t := Left(HandshakeFailed(c, s, id, negotiates));
            t.inFlight == s.inFlight && t.delivered == s.delivered && t.advice == s.advice
  {
    FailHandshakeAdvice(c, Disconnect(s), id);
    FailHandshakeAdvice(c, s, id);
    HandshakeFailedIsQuiet(c, s, id, negotiates);
    ResponsesDeliverNothing(c, s, id, true, negotiates);
  }

  lemma ConnectSendsNothing(c: Config, s: State, id: nat, successful: bool)
    ensures var t := Left(ConnectResponse(c, s, successful));
            t.inFlight == s.inFlight && t.delivered == s.delivered && t.advice == s.advice
  {
    ConnectResponseIsQuiet(c, s, successful);
    ResponsesDeliverNothing(c, s, id, successful, true);
  }

  /** The answer to a message of the application, and a message without one, change nothing of the session. */
  lemma ApplicationReportsAreLocal(c: Config, s: State, e: Event)
    requires Enabled(s, e) && (e.ApplicationReply? || e.Unanswered?)
    ensures var t := After(c, s, e);
            && SameSession(s.(advice := AdviceThen(s, e)), t) && t.queue == s.queue
            && t.submitted == s.submitted && t.failed == s.failed
  {
  }

  /** The client counts as connected exactly from a successful /meta/connect reply to a failed one. */
  lemma ConnectReportsTellConnected(c: Config, s: State, e: Event)
    requires Enabled(s, e) && (e.ConnectReply? || e.ConnectLost?)
    ensures After(c, s, e).connected == (e.ConnectReply? && e.successful)
  {
    if e.ConnectLost? {
      FailConnectKeepsConnected(c, Landed(s, e.m).(connected := false));
    } else if e.successful {
      ProceedKeepsConnected(UpdateAdvice(Landed(s, e.m), e.newAdvice).(connected := true));
    } else {
      FailConnectKeepsConnected(c, UpdateAdvice(Landed(s, e.m), e.newAdvice).(connected := false));
    }
  }

  lemma FailConnectKeepsConnected(c: Config, s: State)
    ensures Left(FailConnect(c, s)).connected == s.connected
  {
  }

  lemma ProceedKeepsConnected(s: State)
    ensures Left(Proceed(s)).connected == s.connected
  {
  }
}
