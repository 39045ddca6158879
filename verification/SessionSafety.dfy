/** What every run of the Bayeux client keeps. */
module SessionSafety {
  import opened Wrappers
  import opened BayeuxSession
  import Callbacks

  ghost predicate IsRun(c: Config, states: seq<State>, events: seq<Event>) {
    && |states| == |events| + 1
    && states[0] == Init(c)
    && forall i | 0 <= i < |events| ::
         Enabled(states[i], events[i]) && states[i + 1] == After(c, states[i], events[i])
  }

  // ----------------------------------------------------------------------- one operation at a time

  predicate HasOperation(ms: set<Message>) {
    exists m :: m in ms && IsOperation(m.kind)
  }

  /** At most one of a scheduled operation, a handshake in flight and a /meta/connect in flight. */
  ghost predicate OneOperation(s: State) {
    && (s.scheduled.Some? ==> !HasOperation(s.inFlight))
    && (forall a, b | a in s.inFlight && b in s.inFlight && IsOperation(a.kind) && IsOperation(b.kind) :: a == b)
  }

  /** Only a disconnected client lacks a transport or a reason to wait. */
  ghost predicate Grounded(s: State) {
    && (!s.status.Disconnected? ==> s.transport)
    && (s.scheduled.Some? ==> !s.status.Disconnected?)
  }

  lemma {:induction false} OutgoingElems(c: Config, clientId: Option<string>, ms: seq<Message>, m: Message)
    requires m in Outgoing(c, clientId, ms)
    ensures exists x :: x in ms && c.passes(x.id) && m == Stamp(x, clientId)
  {
    if !(c.passes(ms[0].id) && m == Stamp(ms[0], clientId)) {
      OutgoingElems(c, clientId, ms[1..], m);
    }
  }

  /** Sending application messages adds no operation. */
  lemma SendApplications(c: Config, s: State, ms: seq<Message>)
    requires forall m | m in ms :: !IsOperation(m.kind)
    ensures forall m: Message | IsOperation(m.kind) :: m in Send(c, s, ms).inFlight <==> m in s.inFlight
  {
    forall m | m in Outgoing(c, s.clientId, ms) ensures !IsOperation(m.kind) {
      OutgoingElems(c, s.clientId, ms, m);
    }
  }

  lemma SendOne(c: Config, s: State, m: Message)
    ensures Send(c, s, [m]).inFlight == if c.passes(m.id) then s.inFlight + {Stamp(m, s.clientId)} else s.inFlight
  {
    assert [m][1..] == [];
    assert Outgoing(c, s.clientId, [m]) == if c.passes(m.id) then [Stamp(m, s.clientId)] else [];
  }

  ghost predicate QueueOk(s: State) {
    forall m | m in s.queue :: IsApplication(m.kind)
  }

  /** The two states have the same operations in flight. */
  ghost predicate SameOperations(s: State, t: State) {
    forall m: Message | IsOperation(m.kind) :: m in t.inFlight <==> m in s.inFlight
  }

  lemma OperationsKept(s: State, t: State)
    requires OneOperation(s) && SameOperations(s, t)
    requires t.scheduled.Some? ==> s.scheduled.Some? || !HasOperation(s.inFlight)
    ensures OneOperation(t)
  {
  }

  /** The event was the report of the operation in flight, so that none remains. */
  lemma OperationLanded(s: State, m: Message)
    requires OneOperation(s) && m in s.inFlight && IsOperation(m.kind)
    ensures !HasOperation(Landed(s, m).inFlight)
  {
  }

  lemma FlushKeepsOperations(c: Config, s: State)
    requires QueueOk(s)
    ensures SameOperations(s, FlushBatch(c, s)) && QueueOk(FlushBatch(c, s))
  {
    if s.queue != [] {
      SendApplications(c, s.(queue := []), s.queue);
    }
  }

  lemma HandshakeOneOperation(c: Config, s: State, hasCallback: bool, negotiates: bool)
    requires s.scheduled.None? && !HasOperation(s.inFlight) && QueueOk(s)
    ensures var r := Handshake(c, s, hasCallback, negotiates);
            var t := if r.Ok? then r.value else r.error;
            OneOperation(t) && QueueOk(t)
  {
    var s1 := s.(clientId := None,
                 advice := if IsDisconnected(s) then c.advice else s.advice.(reconnect := Retry),
                 batch := 0, internalBatch := true, handshakeCallback := hasCallback);
    var (s2, m) := Numbered(s1, MetaHandshake, hasCallback);
    SendOne(c, s2.(transport := true, status := Handshaking), m);
  }

  lemma ConnectOneOperation(c: Config, s: State)
    requires s.scheduled.None? && !HasOperation(s.inFlight) && QueueOk(s)
    ensures OneOperation(Connect(c, s)) && QueueOk(Connect(c, s))
  {
    if !IsDisconnected(s) {
      var (s1, m) := Numbered(s, MetaConnect, false);
      SendOne(c, s1.(status := Connecting), m);
    }
  }

  lemma SubmitOneOperation(c: Config, s: State, m: Message)
    requires OneOperation(s) && QueueOk(s) && IsApplication(m.kind)
    ensures OneOperation(SubmitNumbered(c, s, m)) && QueueOk(SubmitNumbered(c, s, m))
  {
    SendApplications(c, s.(submitted := s.submitted + [m.id]), [m]);
    OperationsKept(s, SubmitNumbered(c, s, m));
  }

  lemma StopOneOperation(c: Config, s: State, hasCallback: bool)
    requires OneOperation(s) && QueueOk(s)
    ensures OneOperation(StopSession(c, s, hasCallback)) && QueueOk(StopSession(c, s, hasCallback))
  {
    if !IsDisconnected(s) {
      var (s1, m) := Numbered(s, MetaDisconnect, hasCallback);
      SendApplications(c, s1.(status := Disconnecting), [m]);
      OperationsKept(s, StopSession(c, s, hasCallback));
    }
  }

  lemma HandshakeReplyOneOperation(c: Config, s: State, id: nat, clientId: Option<string>, negotiates: bool)
    requires !HasOperation(s.inFlight) && QueueOk(s)
    ensures var r := HandshakeSucceeded(c, s, id, clientId, negotiates);
            var t := if r.Ok? then r.value else r.error;
            OneOperation(t) && QueueOk(t)
  {
    FlushKeepsOperations(c, s.(clientId := clientId, internalBatch := false));
    assert SameOperations(s, s.(clientId := clientId, internalBatch := false));
  }

  /** The state a step leaves, whether or not it threw. */
  function Left(r: Result<State, State>): State {
    match r
    case Ok(t) => t
    case Err(t) => t
  }

  /** Nothing is sent, and the queue is kept or failed. */
  ghost predicate Quiet(s: State, t: State) {
    t.inFlight == s.inFlight && (t.queue == s.queue || t.queue == [])
  }

  lemma FailHandshakeIsQuiet(c: Config, s: State, id: nat)
    ensures Quiet(s, FailHandshake(c, s, id))
  {
  }

  lemma FailConnectIsQuiet(c: Config, s: State)
    ensures Quiet(s, Left(FailConnect(c, s)))
  {
  }

  lemma HandshakeFailedIsQuiet(c: Config, s: State, id: nat, negotiates: bool)
    ensures Quiet(s, Left(HandshakeFailed(c, s, id, negotiates)))
  {
    FailHandshakeIsQuiet(c, Disconnect(s), id);
    FailHandshakeIsQuiet(c, s, id);
  }

  lemma ConnectResponseIsQuiet(c: Config, s: State, successful: bool)
    ensures Quiet(s, Left(ConnectResponse(c, s, successful)))
  {
  }

  lemma NoOperationLeft(s: State, t: State)
    requires !HasOperation(s.inFlight) && QueueOk(s) && Quiet(s, t)
    ensures OneOperation(t) && QueueOk(t)
  {
  }

  lemma OperationReportOneOperation(c: Config, s: State, e: Event)
    requires OneOperation(s) && QueueOk(s) && Enabled(s, e) && Reports(e) && IsOperation(e.m.kind)
    ensures OneOperation(After(c, s, e)) && QueueOk(After(c, s, e))
  {
    OperationLanded(s, e.m);
    var s0 := Landed(s, e.m);
    match e
    case HandshakeReply(m, successful, clientId, negotiates, newAdvice) =>
      var s1 := UpdateAdvice(s0, newAdvice);
      if successful {
        HandshakeReplyOneOperation(c, s1, m.id, Some(clientId), negotiates);
      } else {
        FailHandshakeIsQuiet(c, s1, m.id);
        NoOperationLeft(s1, FailHandshake(c, s1, m.id));
      }
    case HandshakeLost(m, negotiates) =>
      HandshakeFailedIsQuiet(c, s0, m.id, negotiates);
      NoOperationLeft(s0, Left(HandshakeFailed(c, s0, m.id, negotiates)));
    case ConnectReply(m, successful, newAdvice) =>
      ConnectResponseIsQuiet(c, UpdateAdvice(s0, newAdvice), successful);
      NoOperationLeft(s0, Left(ConnectResponse(c, UpdateAdvice(s0, newAdvice), successful)));
    case ConnectLost(m) =>
      FailConnectIsQuiet(c, s0.(connected := false));
      NoOperationLeft(s0, Left(FailConnect(c, s0.(connected := false))));
    case Unanswered(m) =>
  }

  lemma OtherReportOneOperation(c: Config, s: State, e: Event)
    requires OneOperation(s) && QueueOk(s) && Enabled(s, e) && Reports(e) && !IsOperation(e.m.kind)
    ensures OneOperation(After(c, s, e)) && QueueOk(After(c, s, e))
  {
    OperationsKept(s, Landed(s, e.m));
  }

  lemma ApplicationOneOperation(c: Config, s: State, e: Event)
    requires OneOperation(s) && QueueOk(s) && Enabled(s, e)
    requires Submits(e)
    ensures OneOperation(After(c, s, e)) && QueueOk(After(c, s, e))
  {
    match e
    case AppSubmit(kind, hasCallback) =>
      var (s1, m) := Numbered(s, kind, hasCallback);
      SubmitOneOperation(c, s1, m);
    case AppRemoteCall(notifies, timed) =>
      var t := Callbacks.RegisterRemote(s.calls, notifies, timed);
      SubmitOneOperation(c, s.(calls := t), Message(t.messageId, RemoteCall, None));
    case AppStartBatch =>
    case AppEndBatch =>
      FlushKeepsOperations(c, s.(batch := s.batch - 1));
      OperationsKept(s, EndBatch(c, s));
    case RemoteCallTimer(id) =>
  }

  lemma StepOneOperation(c: Config, s: State, e: Event)
    requires OneOperation(s) && QueueOk(s) && Enabled(s, e)
    ensures OneOperation(After(c, s, e)) && QueueOk(After(c, s, e))
  {
    if Reports(e) {
      if IsOperation(e.m.kind) {
        OperationReportOneOperation(c, s, e);
      } else {
        OtherReportOneOperation(c, s, e);
      }
    } else if e.AppHandshake? {
      HandshakeOneOperation(c, s.(status := Disconnected), e.hasCallback, e.negotiates);
    } else if e.AppDisconnect? {
      StopOneOperation(c, s, e.hasCallback);
    } else if e.TimerFires? {
      var s1 := s.(scheduled := None);
      ConnectOneOperation(c, s1);
      HandshakeOneOperation(c, s1, s1.handshakeCallback, e.negotiates);
    } else {
      ApplicationOneOperation(c, s, e);
    }
  }

  /** In every run, at most one operation is scheduled or in flight: no second /meta/connect is ever sent
      while one is outstanding. */
  lemma {:induction false} OneOperationAtATime(c: Config, states: seq<State>, events: seq<Event>, i: nat)
    requires IsRun(c, states, events) && i <= |events|
    ensures OneOperation(states[i]) && QueueOk(states[i])
  {
    if i > 0 {
      OneOperationAtATime(c, states, events, i - 1);
      assert states[i - 1 + 1] == After(c, states[i - 1], events[i - 1]);
      StepOneOperation(c, states[i - 1], events[i - 1]);
    }
  }

  // -------------------------------------------------------------- client ids and the message queue

  /** Whenever an application message can be sent directly, the client id is known. */
  ghost predicate Identified(s: State) {
    IsDisconnected(s) || s.internalBatch || s.clientId.Some?
  }

  /** Messages wait only in an open batch, before the handshake reply, or on a disconnected client. */
  ghost predicate WaitsForReason(s: State) {
    s.queue != [] ==> s.batch > 0 || s.internalBatch || IsDisconnected(s)
  }

  ghost predicate Ready(s: State) {
    Grounded(s) && Identified(s) && WaitsForReason(s)
  }

  lemma DisconnectReady(s: State)
    ensures Ready(Disconnect(s))
  {
  }

  lemma FailHandshakeReady(c: Config, s: State, id: nat)
    requires Ready(s)
    ensures Ready(FailHandshake(c, s, id))
  {
  }

  lemma FailConnectReady(c: Config, s: State)
    requires Ready(s)
    ensures Ready(Left(FailConnect(c, s)))
  {
  }

  lemma HandshakeFailedReady(c: Config, s: State, id: nat, negotiates: bool)
    requires Ready(s)
    ensures Ready(Left(HandshakeFailed(c, s, id, negotiates)))
  {
    FailHandshakeReady(c, Disconnect(s), id);
    FailHandshakeReady(c, s, id);
  }

  lemma ConnectResponseReady(c: Config, s: State, successful: bool)
    requires Ready(s)
    ensures Ready(Left(ConnectResponse(c, s, successful)))
  {
    FailConnectReady(c, s.(connected := successful));
  }

  lemma HandshakeSucceededReady(c: Config, s: State, id: nat, clientId: Option<string>, negotiates: bool)
    requires Ready(s) && clientId.Some?
    ensures Ready(Left(HandshakeSucceeded(c, s, id, clientId, negotiates)))
  {
  }

  lemma HandshakeReady(c: Config, s: State, hasCallback: bool, negotiates: bool)
    requires Ready(s) && s.scheduled.None?
    ensures Ready(Left(Handshake(c, s, hasCallback, negotiates)))
  {
  }

  lemma SubmitReady(c: Config, s: State, m: Message)
    requires Ready(s) && !IsDisconnected(s)
    ensures Ready(SubmitNumbered(c, s, m))
  {
  }

  lemma ReportReady(c: Config, s: State, e: Event)
    requires Ready(s) && Enabled(s, e) && Reports(e)
    ensures Ready(After(c, s, e))
  {
    match e
    case HandshakeReply(m, successful, clientId, negotiates, newAdvice) =>
      var s1 := UpdateAdvice(Landed(s, m), newAdvice);
      HandshakeSucceededReady(c, s1, m.id, Some(clientId), negotiates);
      FailHandshakeReady(c, s1, m.id);
    case HandshakeLost(m, negotiates) => HandshakeFailedReady(c, Landed(s, m), m.id, negotiates);
    case ConnectReply(m, successful, newAdvice) =>
      ConnectResponseReady(c, UpdateAdvice(Landed(s, m), newAdvice), successful);
    case ConnectLost(m) => FailConnectReady(c, Landed(s, m).(connected := false));
    case DisconnectReply(m, newAdvice) => DisconnectReady(UpdateAdvice(Landed(s, m), newAdvice));
    case ApplicationReply(m, verdict, newAdvice) =>
    case Unanswered(m) =>
  }

  lemma SubmissionReady(c: Config, s: State, e: Event)
    requires Ready(s) && Enabled(s, e) && Submits(e)
    ensures Ready(After(c, s, e))
  {
    match e
    case AppSubmit(kind, hasCallback) =>
      if !IsDisconnected(s) {
        var (s1, m) := Numbered(s, kind, hasCallback);
        SubmitReady(c, s1, m);
      }
    case AppRemoteCall(notifies, timed) =>
      if !IsDisconnected(s) {
        var t := Callbacks.RegisterRemote(s.calls, notifies, timed);
        SubmitReady(c, s.(calls := t), Message(t.messageId, RemoteCall, None));
      }
    case AppStartBatch =>
    case AppEndBatch =>
    case RemoteCallTimer(id) =>
  }

  lemma StepReady(c: Config, s: State, e: Event)
    requires Ready(s) && Enabled(s, e)
    ensures Ready(After(c, s, e))
  {
    if Reports(e) {
      ReportReady(c, s, e);
    } else if Submits(e) {
      SubmissionReady(c, s, e);
    } else if e.AppHandshake? {
      HandshakeReady(c, s.(status := Disconnected), e.hasCallback, e.negotiates);
    } else if e.TimerFires? {
      TimerReady(c, s, e);
    }
  }

  lemma TimerReady(c: Config, s: State, e: Event)
    requires Ready(s) && Enabled(s, e) && e.TimerFires?
    ensures Ready(After(c, s, e))
  {
    if s.scheduled.value.operation.SendHandshake? {
      HandshakeReady(c, s.(scheduled := None), s.handshakeCallback, e.negotiates);
    }
  }

  // ------------------------------------------------------------ what reaches the transport

  /** Every application message that reached the transport carried a client id. */
  ghost predicate AllIdentified(s: State) {
    forall m | m in s.delivered :: m.clientId.Some?
  }

  lemma {:induction false} ApplicationsElems(ms: seq<Message>, m: Message)
    ensures m in Applications(ms) <==> m in ms && IsApplication(m.kind)
  {
    if ms != [] {
      ApplicationsElems(ms[1..], m);
    }
  }

  lemma SendIdentifies(c: Config, s: State, ms: seq<Message>)
    requires AllIdentified(s)
    requires s.clientId.Some? || forall m | m in ms :: !IsApplication(m.kind)
    ensures AllIdentified(Send(c, s, ms))
  {
    var out := Outgoing(c, s.clientId, ms);
    forall m | m in Applications(out) ensures m.clientId.Some? {
      ApplicationsElems(out, m);
      OutgoingElems(c, s.clientId, ms, m);
    }
  }

  lemma SubmitIdentifies(c: Config, s: State, m: Message)
    requires AllIdentified(s) && Ready(s) && !IsDisconnected(s)
    ensures AllIdentified(SubmitNumbered(c, s, m))
  {
    if s.batch == 0 && !s.internalBatch {
      SendIdentifies(c, s.(submitted := s.submitted + [m.id]), [m]);
    }
  }

  lemma FlushIdentifies(c: Config, s: State)
    requires AllIdentified(s) && s.clientId.Some?
    ensures AllIdentified(FlushBatch(c, s))
  {
    SendIdentifies(c, s.(queue := []), s.queue);
  }

  lemma HandshakeIdentifies(c: Config, s: State, hasCallback: bool, negotiates: bool)
    requires AllIdentified(s)
    ensures AllIdentified(Left(Handshake(c, s, hasCallback, negotiates)))
  {
    var s1 := s.(clientId := None,
                 advice := if IsDisconnected(s) then c.advice else s.advice.(reconnect := Retry),
                 batch := 0, internalBatch := true, handshakeCallback := hasCallback);
    var (s2, m) := Numbered(s1, MetaHandshake, hasCallback);
    SendIdentifies(c, s2.(transport := true, status := Handshaking), [m]);
  }

  lemma MetaIdentifies(c: Config, s: State, hasCallback: bool)
    requires AllIdentified(s)
    ensures AllIdentified(Connect(c, s)) && AllIdentified(StopSession(c, s, hasCallback))
  {
    var (s1, m) := Numbered(s, MetaConnect, false);
    SendIdentifies(c, s1.(status := Connecting), [m]);
    var (s2, n) := Numbered(s, MetaDisconnect, hasCallback);
    SendIdentifies(c, s2.(status := Disconnecting), [n]);
  }

  lemma SucceededIdentifies(c: Config, s: State, id: nat, clientId: Option<string>, negotiates: bool)
    requires AllIdentified(s) && clientId.Some?
    ensures AllIdentified(Left(HandshakeSucceeded(c, s, id, clientId, negotiates)))
  {
    FlushIdentifies(c, s.(clientId := clientId, internalBatch := false));
  }

  lemma FailHandshakeDelivers(c: Config, s: State, id: nat)
    ensures FailHandshake(c, s, id).delivered == s.delivered
  {
  }

  lemma FailConnectDelivers(c: Config, s: State)
    ensures Left(FailConnect(c, s)).delivered == s.delivered
  {
  }

  lemma ResponsesDeliverNothing(c: Config, s: State, id: nat, successful: bool, negotiates: bool)
    ensures Left(ConnectResponse(c, s, successful)).delivered == s.delivered
    ensures Left(HandshakeFailed(c, s, id, negotiates)).delivered == s.delivered
  {
    FailConnectDelivers(c, s.(connected := successful));
    FailHandshakeDelivers(c, Disconnect(s), id);
    FailHandshakeDelivers(c, s, id);
  }

  lemma SubmissionIdentifies(c: Config, s: State, e: Event)
    requires AllIdentified(s) && Ready(s) && Enabled(s, e) && Submits(e)
    ensures AllIdentified(After(c, s, e))
  {
    match e
    case AppSubmit(kind, hasCallback) =>
      if !IsDisconnected(s) {
        var (s1, m) := Numbered(s, kind, hasCallback);
        SubmitIdentifies(c, s1, m);
      }
    case AppRemoteCall(notifies, timed) =>
      if !IsDisconnected(s) {
        var t := Callbacks.RegisterRemote(s.calls, notifies, timed);
        SubmitIdentifies(c, s.(calls := t), Message(t.messageId, RemoteCall, None));
      }
    case AppStartBatch =>
    case AppEndBatch =>
      if !IsDisconnected(s) && !s.internalBatch {
        FlushIdentifies(c, s.(batch := s.batch - 1));
      }
    case RemoteCallTimer(id) =>
  }

  lemma ReportIdentifies(c: Config, s: State, e: Event)
    requires AllIdentified(s) && Enabled(s, e) && Reports(e)
    ensures AllIdentified(After(c, s, e))
  {
    var s0 := Landed(s, e.m);
    match e
    case HandshakeReply(m, successful, clientId, negotiates, newAdvice) =>
      SucceededIdentifies(c, UpdateAdvice(s0, newAdvice), m.id, Some(clientId), negotiates);
      FailHandshakeDelivers(c, UpdateAdvice(s0, newAdvice), m.id);
    case HandshakeLost(m, negotiates) => ResponsesDeliverNothing(c, s0, m.id, true, negotiates);
    case ConnectReply(m, successful, newAdvice) =>
      ResponsesDeliverNothing(c, UpdateAdvice(s0, newAdvice), m.id, successful, true);
    case ConnectLost(m) => FailConnectDelivers(c, s0.(connected := false));
    case DisconnectReply(m, newAdvice) =>
    case ApplicationReply(m, verdict, newAdvice) =>
    case Unanswered(m) =>
  }

  lemma StepIdentifies(c: Config, s: State, e: Event)
    requires AllIdentified(s) && Ready(s) && Enabled(s, e)
    ensures AllIdentified(After(c, s, e))
  {
    if Reports(e) {
      ReportIdentifies(c, s, e);
    } else if Submits(e) {
      SubmissionIdentifies(c, s, e);
    } else if e.AppHandshake? {
      HandshakeIdentifies(c, s.(status := Disconnected), e.hasCallback, e.negotiates);
    } else if e.TimerFires? {
      MetaIdentifies(c, s.(scheduled := None), false);
      HandshakeIdentifies(c, s.(scheduled := None), s.handshakeCallback, e.negotiates);
    } else {
      MetaIdentifies(c, s, e.hasCallback);
    }
  }

  /** In every run, no publish, subscribe, unsubscribe or remote call reaches the transport without a client id. */
  lemma {:induction false} NothingUnidentifiedIsSent(c: Config, states: seq<State>, events: seq<Event>, i: nat)
    requires IsRun(c, states, events) && i <= |events|
    ensures Ready(states[i]) && AllIdentified(states[i])
  {
    if i > 0 {
      NothingUnidentifiedIsSent(c, states, events, i - 1);
      assert states[i - 1 + 1] == After(c, states[i - 1], events[i - 1]);
      StepReady(c, states[i - 1], events[i - 1]);
      StepIdentifies(c, states[i - 1], events[i - 1]);
    }
  }
}
