/** The protocol as a table: in which phase a client is, and what the report of an operation makes it do next. */
module SessionProtocol {
  import opened Wrappers
  import opened BayeuxSession
  import opened SessionSafety
  import opened SessionProgress
  import Callbacks

  // -------------------------------------------------------------------------- what follows a report

  /** What a client does next: nothing new, the end of the session, an operation after a delay, or a throw. */
  datatype Next = Continues | Stops | Connects(delay: nat) | Handshakes(delay: nat) | Throws

  function AdviceThen(s: State, e: Event): Advice {
    match e
    case HandshakeReply(_, _, _, _, newAdvice) => if newAdvice.Some? then newAdvice.value else s.advice
    case ConnectReply(_, _, newAdvice) => if newAdvice.Some? then newAdvice.value else s.advice
    case DisconnectReply(_, newAdvice) => if newAdvice.Some? then newAdvice.value else s.advice
    case ApplicationReply(_, _, newAdvice) => if newAdvice.Some? then newAdvice.value else s.advice
    case _ => s.advice
  }

  /** The backoff that one more failure leads to. */
  function Grown(c: Config, s: State): nat {
    s.backoff + if s.backoff < c.maxBackoff then c.backoffIncrement else 0
  }

  /** A success: go on connecting as advised. Advice to handshake again, and unknown advice, are not understood. */
  function AfterSuccess(s: State, advice: Advice): Next {
    if IsDisconnected(s) || advice.reconnect == NoReconnect then Stops
    else if advice.reconnect == Retry then Connects(advice.interval)
    else Throws
  }

  /** A failed handshake is tried again with a grown backoff, whatever the advice, unless it is not to reconnect. */
  function AfterFailedHandshake(c: Config, s: State, advice: Advice): Next {
    if IsDisconnected(s) || advice.reconnect == NoReconnect then Stops
    else Handshakes(advice.interval + Grown(c, s))
  }

  /** A failed /meta/connect is tried again with the backoff of the failures before it, or gives way to a handshake. */
  function AfterFailedConnect(s: State, advice: Advice): Next {
    if IsDisconnected(s) then Stops
    else
      match advice.reconnect
      case NoReconnect => Stops
      case Retry => Connects(advice.interval + s.backoff)
      case Rehandshake => Handshakes(advice.interval)
      case Unrecognized => Throws
  }

  function NextOf(c: Config, s: State, e: Event): Next {
    var advice := AdviceThen(s, e);
    match e
    case HandshakeReply(_, successful, _, negotiates, _) =>
      if !successful then AfterFailedHandshake(c, s, advice)
      else if !s.transport then Throws
      else if !negotiates then Stops
      else AfterSuccess(s, advice)
    case HandshakeLost(_, negotiates) =>
      if !s.transport then Throws else if !negotiates then Stops else AfterFailedHandshake(c, s, advice)
    case ConnectReply(_, successful, _) => if successful then AfterSuccess(s, advice) else AfterFailedConnect(s, advice)
    case ConnectLost(_) => AfterFailedConnect(s, advice)
    case DisconnectReply(_, _) => Stops
    case _ => Continues
  }

  /** The session is over: nothing is scheduled, queued or batched, and the client has no id. */
  ghost predicate Ended(t: State) {
    && t.status == Disconnected && t.scheduled == None && t.clientId == None && t.queue == [] && t.batch == 0
    && t.backoff == 0
  }

  /** The session goes on with this operation. */
  ghost predicate Goes(s: State, t: State, status: Status, operation: Operation, delay: nat) {
    && t.status == status && t.scheduled == Some(Scheduled(operation, delay)) && t.batch == s.batch && t.transport
  }

  ghost predicate Leads(s: State, r: Result<State, State>, next: Next, clientId: Option<string>, internalBatch: bool) {
    match next
    case Continues => true
    case Stops => r.Ok? && Ended(r.value)
    case Connects(delay) =>
      && r.Ok? && Goes(s, r.value, Connecting, SendConnect, delay)
      && r.value.internalBatch == internalBatch && r.value.clientId == clientId
    case Handshakes(delay) =>
      && r.Ok? && Goes(s, r.value, Handshaking, SendHandshake, delay)
      && r.value.internalBatch && r.value.clientId == clientId
    case Throws => r.Err? && r.error.scheduled == s.scheduled && r.error.status == s.status && r.error.batch == s.batch
  }

  /** The client id and the internal batch with which a session goes on: an accepted handshake brings the one and ends
      the other. */
  ghost predicate Follows(c: Config, s: State, e: Event)
    requires Enabled(s, e)
  {
    var accepted := e.HandshakeReply? && e.successful;
    Leads(s, Step(c, s, e), NextOf(c, s, e), if accepted then Some(e.clientId) else s.clientId,
          !accepted && s.internalBatch)
  }

  lemma ProceedLeads(s: State)
    requires s.transport
    ensures Leads(s, Proceed(s), AfterSuccess(s, s.advice), s.clientId, s.internalBatch)
  {
  }

  lemma FailConnectLeads(c: Config, s: State)
    requires Grounded(s)
    ensures Leads(s, FailConnect(c, s), AfterFailedConnect(s, s.advice), s.clientId, s.internalBatch)
  {
  }

  lemma FailHandshakeLeads(c: Config, s: State, id: nat)
    requires Grounded(s)
    ensures Leads(s, Ok(FailHandshake(c, s, id)), AfterFailedHandshake(c, s, s.advice), s.clientId, s.internalBatch)
  {
  }

  lemma FlushKeepsSession(c: Config, s: State)
    ensures var t := FlushBatch(c, s);
            && t.status == s.status && t.advice == s.advice && t.batch == s.batch && t.transport == s.transport
            && t.clientId == s.clientId && t.internalBatch == s.internalBatch && t.scheduled == s.scheduled
  {
  }

  lemma SucceededLeads(c: Config, s: State, id: nat, clientId: Option<string>)
    requires s.transport
    ensures Leads(s, HandshakeSucceeded(c, s, id, clientId, true), AfterSuccess(s, s.advice), clientId, false)
  {
    var s1 := s.(clientId := clientId, internalBatch := false);
    FlushKeepsSession(c, s1);
    var s2 := Acknowledge(FlushBatch(c, s1), id);
    assert HandshakeSucceeded(c, s, id, clientId, true) == Proceed(s2);
    ProceedLeads(s2);
  }

  lemma AcceptedFollows(c: Config, s: State, e: Event)
    requires Enabled(s, e) && e.HandshakeReply? && e.successful
    ensures Follows(c, s, e)
  {
    var s1 := UpdateAdvice(Landed(s, e.m), e.newAdvice);
    assert Step(c, s, e) == HandshakeSucceeded(c, s1, e.m.id, Some(e.clientId), e.negotiates);
    if s.transport && e.negotiates {
      SucceededLeads(c, s1, e.m.id, Some(e.clientId));
    } else {
      UselessSuccessLeads(c, s1, e.m.id, Some(e.clientId), e.negotiates);
    }
  }

  lemma UselessSuccessLeads(c: Config, s: State, id: nat, clientId: Option<string>, negotiates: bool)
    requires !s.transport || !negotiates
    ensures Leads(s, HandshakeSucceeded(c, s, id, clientId, negotiates), if s.transport then Stops else Throws,
                  clientId, false)
  {
  }

  lemma RefusedFollows(c: Config, s: State, e: Event)
    requires Enabled(s, e) && e.HandshakeReply? && !e.successful && Grounded(s)
    ensures Follows(c, s, e)
  {
    var s1 := UpdateAdvice(Landed(s, e.m), e.newAdvice);
    FailHandshakeLeads(c, s1, e.m.id);
    assert Step(c, s, e) == Ok(FailHandshake(c, s1, e.m.id));
  }

  lemma LostHandshakeFollows(c: Config, s: State, e: Event)
    requires Enabled(s, e) && e.HandshakeLost? && Grounded(s)
    ensures Follows(c, s, e)
  {
    var s1 := Landed(s, e.m);
    assert Step(c, s, e) == HandshakeFailed(c, s1, e.m.id, e.negotiates);
    LossLeads(c, s1, e.m.id, e.negotiates);
  }

  lemma LossLeads(c: Config, s: State, id: nat, negotiates: bool)
    requires Grounded(s)
    ensures Leads(s, HandshakeFailed(c, s, id, negotiates),
                  if !s.transport then Throws else if !negotiates then Stops else AfterFailedHandshake(c, s, s.advice),
                  s.clientId, s.internalBatch)
  {
    FailHandshakeLeads(c, s, id);
  }

  lemma ConnectReplyFollows(c: Config, s: State, e: Event)
    requires Enabled(s, e) && e.ConnectReply? && Grounded(s)
    ensures Follows(c, s, e)
  {
    var s1 := UpdateAdvice(Landed(s, e.m), e.newAdvice).(connected := e.successful);
    if e.successful {
      assert Step(c, s, e) == Proceed(s1);
      if s1.transport {
        ProceedLeads(s1);
      }
    } else {
      FailConnectLeads(c, s1);
      assert Step(c, s, e) == FailConnect(c, s1);
    }
  }

  lemma LostConnectFollows(c: Config, s: State, e: Event)
    requires Enabled(s, e) && e.ConnectLost? && Grounded(s)
    ensures Follows(c, s, e)
  {
    FailConnectLeads(c, Landed(s, e.m).(connected := false));
  }

  lemma OthersFollow(c: Config, s: State, e: Event)
    requires Enabled(s, e) && !e.HandshakeReply? && !e.HandshakeLost? && !e.ConnectReply? && !e.ConnectLost?
    ensures Follows(c, s, e)
  {
  }

  /** The transport is dropped when a session stops, except that the failure of a handshake finds another one. */
  function TransportThen(c: Config, s: State, e: Event): bool {
    if e.HandshakeLost? then s.transport && e.negotiates
    else s.transport && !NextOf(c, s, e).Stops?
  }

  lemma ConnectTransport(c: Config, s: State, e: Event)
    requires Enabled(s, e) && (e.ConnectReply? || e.ConnectLost?)
    ensures After(c, s, e).transport == TransportThen(c, s, e)
  {
    if e.ConnectReply? && e.successful {
      ProceedTransport(UpdateAdvice(Landed(s, e.m), e.newAdvice).(connected := true));
    } else if e.ConnectReply? {
      var s1 := UpdateAdvice(Landed(s, e.m), e.newAdvice).(connected := false);
      assert Step(c, s, e) == FailConnect(c, s1);
      FailConnectTransport(c, s1);
    } else {
      FailConnectTransport(c, Landed(s, e.m).(connected := false));
    }
  }

  lemma ProceedTransport(s: State)
    ensures Left(Proceed(s)).transport == (s.transport && !AfterSuccess(s, s.advice).Stops?)
  {
  }

  lemma FailConnectTransport(c: Config, s: State)
    ensures Left(FailConnect(c, s)).transport == (s.transport && !AfterFailedConnect(s, s.advice).Stops?)
  {
  }

  lemma HandshakeTransport(c: Config, s: State, e: Event)
    requires Enabled(s, e) && (e.HandshakeReply? || e.HandshakeLost?)
    ensures After(c, s, e).transport == TransportThen(c, s, e)
  {
    if e.HandshakeReply? && e.successful {
      AcceptedTransport(c, s, e);
    } else if e.HandshakeReply? {
      assert Step(c, s, e) == Ok(FailHandshake(c, UpdateAdvice(Landed(s, e.m), e.newAdvice), e.m.id));
    } else {
      LostTransport(c, Landed(s, e.m), e.m.id, e.negotiates);
    }
  }

  lemma LostTransport(c: Config, s: State, id: nat, negotiates: bool)
    ensures Left(HandshakeFailed(c, s, id, negotiates)).transport == (s.transport && negotiates)
  {
  }

  lemma AcceptedTransport(c: Config, s: State, e: Event)
    requires Enabled(s, e) && e.HandshakeReply? && e.successful
    ensures After(c, s, e).transport == TransportThen(c, s, e)
  {
    var s1 := UpdateAdvice(Landed(s, e.m), e.newAdvice).(clientId := Some(e.clientId), internalBatch := false);
    FlushKeepsSession(c, s1);
  }

  lemma OtherTransport(c: Config, s: State, e: Event)
    requires Enabled(s, e) && (e.DisconnectReply? || e.ApplicationReply? || e.Unanswered?)
    ensures After(c, s, e).transport == TransportThen(c, s, e)
  {
  }

  /** What a report does to the transport of the client. */
  lemma ReportsKeepTransport(c: Config, s: State, e: Event)
    requires Enabled(s, e) && Reports(e)
    ensures After(c, s, e).transport == TransportThen(c, s, e)
  {
    if e.HandshakeReply? || e.HandshakeLost? {
      HandshakeTransport(c, s, e);
    } else if e.ConnectReply? || e.ConnectLost? {
      ConnectTransport(c, s, e);
    } else {
      OtherTransport(c, s, e);
    }
  }

  /** In every run the reports of operations do what the table says: which operation is scheduled and after how long,
      the client id taken, the end of the internal batch, the end of the session, or a throw. */
  lemma ReportsFollowTable(c: Config, states: seq<State>, events: seq<Event>, i: nat)
    requires IsRun(c, states, events) && i < |events|
    ensures Follows(c, states[i], events[i])
  {
    var s, e := states[i], events[i];
    NothingUnidentifiedIsSent(c, states, events, i);
    match e
    case HandshakeReply(_, successful, _, _, _) =>
      if successful {
        AcceptedFollows(c, s, e);
      } else {
        RefusedFollows(c, s, e);
      }
    case HandshakeLost(_, _) => LostHandshakeFollows(c, s, e);
    case ConnectReply(_, _, _) => ConnectReplyFollows(c, s, e);
    case ConnectLost(_) => LostConnectFollows(c, s, e);
    case _ => OthersFollow(c, s, e);
  }

  // ------------------------------------------------------------------------------------ phases

  predicate HandshakePending(s: State) {
    || (s.scheduled.Some? && s.scheduled.value.operation == SendHandshake)
    || exists m :: m in s.inFlight && m.kind == MetaHandshake
  }

  predicate ConnectInFlight(s: State) {
    exists m :: m in s.inFlight && m.kind == MetaConnect
  }

  /** A client that is not disconnected waits for a handshake, with the internal batch on; or, with a client id and the
      internal batch off, for the time to connect or for the answer to a /meta/connect. Its status says which. */
  ghost predicate InPhase(s: State) {
    match s.status
    case Handshaking => s.internalBatch && HandshakePending(s)
    case Connecting =>
      !s.internalBatch && s.clientId.Some? && s.scheduled.Some? && s.scheduled.value.operation == SendConnect
    case Connected => !s.internalBatch && s.clientId.Some? && ConnectInFlight(s)
    case _ => true
  }

  /** The phase of the same operations, status, client id and internal batch is the same. */
  lemma SamePhase(s: State, t: State)
    requires InPhase(s) && SameOperations(s, t) && t.scheduled == s.scheduled
    requires t.status == s.status && t.clientId == s.clientId && t.internalBatch == s.internalBatch
    ensures InPhase(t)
  {
    if m :| m in s.inFlight && m.kind == MetaHandshake {
      assert m in t.inFlight;
    }
    if m :| m in s.inFlight && m.kind == MetaConnect {
      assert m in t.inFlight;
    }
  }

  lemma HandshakePhase(c: Config, s: State, hasCallback: bool, negotiates: bool)
    requires c.passes(s.calls.messageId + 1) && Handshake(c, s, hasCallback, negotiates).Ok?
    ensures InPhase(Handshake(c, s, hasCallback, negotiates).value)
  {
    var s1 := s.(clientId := None,
                 advice := if IsDisconnected(s) then c.advice else s.advice.(reconnect := Retry),
                 batch := 0, internalBatch := true, handshakeCallback := hasCallback);
    var (s2, m) := Numbered(s1, MetaHandshake, hasCallback);
    SendOne(c, s2.(transport := true, status := Handshaking), m);
    assert Stamp(m, None) in Handshake(c, s, hasCallback, negotiates).value.inFlight;
  }

  lemma ConnectPhase(c: Config, s: State)
    requires c.passes(s.calls.messageId + 1) && (!IsDisconnected(s) ==> s.clientId.Some? && !s.internalBatch)
    ensures InPhase(Connect(c, s))
  {
    if !IsDisconnected(s) {
      var (s1, m) := Numbered(s, MetaConnect, false);
      SendOne(c, s1.(status := Connecting), m);
      assert Stamp(m, s.clientId) in Connect(c, s).inFlight;
    }
  }

  lemma TimerPhase(c: Config, s: State, e: Event)
    requires InPhase(s) && OneOperation(s) && Enabled(s, e) && e.TimerFires? && Orderly(c, s, e)
    ensures InPhase(After(c, s, e))
  {
    var s1 := s.(scheduled := None);
    if s.scheduled.value.operation == SendConnect {
      assert !HasOperation(s.inFlight);
      ConnectPhase(c, s1);
    } else {
      HandshakePhase(c, s1, s.handshakeCallback, e.negotiates);
    }
  }

  lemma SubmissionPhase(c: Config, s: State, e: Event)
    requires InPhase(s) && QueueOk(s) && Enabled(s, e) && Submits(e)
    ensures InPhase(After(c, s, e))
  {
    match e
    case AppSubmit(kind, hasCallback) =>
      var (s1, m) := Numbered(s, kind, hasCallback);
      SendApplications(c, s1.(submitted := s1.submitted + [m.id]), [m]);
      SamePhase(s, Submit(c, s, kind, hasCallback));
    case AppRemoteCall(notifies, timed) =>
      var t := Callbacks.RegisterRemote(s.calls, notifies, timed);
      var m := Message(t.messageId, RemoteCall, None);
      SendApplications(c, s.(calls := t, submitted := s.submitted + [m.id]), [m]);
      SamePhase(s, SubmitRemoteCall(c, s, notifies, timed));
    case AppStartBatch =>
    case AppEndBatch =>
      FlushKeepsOperations(c, s.(batch := s.batch - 1));
      FlushKeepsSession(c, s.(batch := s.batch - 1));
      SamePhase(s, EndBatch(c, s));
    case RemoteCallTimer(_) =>
  }

  /** What the table leads to is a phase. A report of a /meta/connect finds the client connected, because only then is
      one in flight. */
  lemma TablePhase(c: Config, s: State, e: Event)
    requires InPhase(s) && OneOperation(s) && Enabled(s, e) && Follows(c, s, e) && Step(c, s, e).Ok?
    requires e.HandshakeReply? || e.HandshakeLost? || e.ConnectReply? || e.ConnectLost? || e.DisconnectReply?
    ensures InPhase(After(c, s, e))
  {
    if (e.ConnectReply? || e.ConnectLost?) && !IsDisconnected(s) {
      ConnectFindsConnected(s, e.m);
    }
    var accepted := e.HandshakeReply? && e.successful;
    LeadsToPhase(s, Step(c, s, e), NextOf(c, s, e), if accepted then Some(e.clientId) else s.clientId,
                 !accepted && s.internalBatch);
  }

  lemma ConnectFindsConnected(s: State, m: Message)
    requires InPhase(s) && OneOperation(s) && m in s.inFlight && m.kind == MetaConnect && !IsDisconnected(s)
    ensures !s.internalBatch && s.clientId.Some?
  {
    assert IsOperation(m.kind) && HasOperation(s.inFlight);
  }

  lemma LeadsToPhase(s: State, r: Result<State, State>, next: Next, clientId: Option<string>, internalBatch: bool)
    requires Leads(s, r, next, clientId, internalBatch) && r.Ok? && next != Continues
    requires next.Connects? ==> clientId.Some? && !internalBatch
    ensures InPhase(r.value)
  {
  }

  lemma OtherPhase(c: Config, s: State, e: Event)
    requires InPhase(s) && Enabled(s, e) && Orderly(c, s, e)
    requires e.ApplicationReply? || e.Unanswered? || e.AppDisconnect?
    ensures InPhase(After(c, s, e))
  {
    if e.ApplicationReply? || e.Unanswered? {
      SamePhase(s, After(c, s, e));
    }
  }

  lemma StepPhase(c: Config, s: State, e: Event)
    requires InPhase(s) && OneOperation(s) && QueueOk(s) && Enabled(s, e) && Orderly(c, s, e) && Follows(c, s, e)
    ensures InPhase(After(c, s, e))
  {
    if e.AppHandshake? {
      HandshakePhase(c, s.(status := Disconnected), e.hasCallback, e.negotiates);
    } else if e.TimerFires? {
      TimerPhase(c, s, e);
    } else if Submits(e) {
      SubmissionPhase(c, s, e);
    } else if e.ApplicationReply? || e.Unanswered? || e.AppDisconnect? {
      OtherPhase(c, s, e);
    } else {
      TablePhase(c, s, e);
    }
  }

  /** In every orderly run the status of the client tells its phase; in particular the internal batch is on, for a
      client that is not disconnected, exactly while a handshake is scheduled or in flight. */
  lemma {:induction false} StatusTellsPhase(c: Config, states: seq<State>, events: seq<Event>, i: nat)
    requires IsRun(c, states, events) && i <= |events|
    requires forall j | 0 <= j < i :: Orderly(c, states[j], events[j])
    ensures InPhase(states[i])
    ensures !IsDisconnected(states[i]) ==> (states[i].internalBatch <==> HandshakePending(states[i]))
  {
    OneOperationAtATime(c, states, events, i);
    if i > 0 {
      StatusTellsPhase(c, states, events, i - 1);
      OneOperationAtATime(c, states, events, i - 1);
      ReportsFollowTable(c, states, events, i - 1);
      assert states[i - 1 + 1] == After(c, states[i - 1], events[i - 1]);
      StepPhase(c, states[i - 1], events[i - 1]);
    }
    if !IsDisconnected(states[i]) {
      PhaseTellsBatch(states[i]);
    }
  }

  lemma PhaseTellsBatch(s: State)
    requires InPhase(s) && OneOperation(s) && !IsDisconnected(s)
    ensures s.internalBatch <==> HandshakePending(s)
  {
    if m :| m in s.inFlight && m.kind == MetaHandshake {
      assert HasOperation(s.inFlight);
    }
  }
}
