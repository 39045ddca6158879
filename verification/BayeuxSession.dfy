/** The Bayeux client: handshake, connect, retry and disconnect, with batching, as functions on its state. */
module BayeuxSession {
  import opened Wrappers
  import Callbacks

  datatype Status = Disconnected | Handshaking | Connecting | Connected | Disconnecting

  datatype Kind = MetaHandshake | MetaConnect | MetaDisconnect | Subscribe | Unsubscribe | Publish | RemoteCall

  datatype Message = Message(id: nat, kind: Kind, clientId: Option<string>)

  datatype Operation = SendHandshake | SendConnect

  /** The one timeout slot: what to do, and after how long. */
  datatype Scheduled = Scheduled(operation: Operation, delay: nat)

  datatype Reconnect = Retry | Rehandshake | NoReconnect | Unrecognized

  datatype Advice = Advice(interval: nat, reconnect: Reconnect)

  /** `passes` is the verdict of the outgoing extensions on a message id. */
  datatype Config = Config(backoffIncrement: nat, maxBackoff: nat, advice: Advice, passes: nat -> bool)

  /** `inFlight` holds the messages given to the transport and not reported yet. `submitted` and `sent` record the
      ids of application messages as they were submitted and handed to the send function, `failed` those that a
      disconnection failed while queued, `delivered` the application messages that reached the transport. */
  datatype State = State(
    status: Status,
    transport: bool,
    clientId: Option<string>,
    batch: nat,
    queue: seq<Message>,
    internalBatch: bool,
    backoff: nat,
    scheduled: Option<Scheduled>,
    advice: Advice,
    handshakeCallback: bool,
    connected: bool,
    calls: Callbacks.Table,
    inFlight: set<Message>,
    submitted: seq<nat>,
    sent: seq<nat>,
    failed: set<nat>,
    delivered: seq<Message>)

  function Init(c: Config): State {
    State(Disconnected, false, None, 0, [], false, 0, None, c.advice, false, false, Callbacks.EMPTY,
          {}, [], [], {}, [])
  }

  predicate IsApplication(k: Kind) {
    k.Subscribe? || k.Unsubscribe? || k.Publish? || k.RemoteCall?
  }

  predicate IsOperation(k: Kind) {
    k.MetaHandshake? || k.MetaConnect?
  }

  predicate IsDisconnected(s: State) {
    s.status.Disconnecting? || s.status.Disconnected?
  }

  // ------------------------------------------------------------------------------ sending

  function Stamp(m: Message, clientId: Option<string>): Message {
    if clientId.Some? then m.(clientId := clientId) else m
  }

  /** The messages that leave: stamped with the client id, without those an extension drops. */
  function Outgoing(c: Config, clientId: Option<string>, ms: seq<Message>): seq<Message> {
    if ms == [] then []
    else if c.passes(ms[0].id) then [Stamp(ms[0], clientId)] + Outgoing(c, clientId, ms[1..])
    else Outgoing(c, clientId, ms[1..])
  }

  function ForgetDropped(c: Config, t: Callbacks.Table, ms: seq<Message>): Callbacks.Table
    decreases |ms|
  {
    if ms == [] then t
    else ForgetDropped(c, if c.passes(ms[0].id) then t else Callbacks.Forget(t, ms[0].id), ms[1..])
  }

  function Applications(ms: seq<Message>): seq<Message> {
    if ms == [] then []
    else if IsApplication(ms[0].kind) then [ms[0]] + Applications(ms[1..])
    else Applications(ms[1..])
  }

  function Ids(ms: seq<Message>): seq<nat> {
    seq(|ms|, i requires 0 <= i < |ms| => ms[i].id)
  }

  function IdSet(ms: seq<Message>): set<nat> {
    set m | m in ms :: m.id
  }

  function AsSet(ms: seq<Message>): set<Message> {
    set m | m in ms
  }

  function Send(c: Config, s: State, ms: seq<Message>): State {
    var out := Outgoing(c, s.clientId, ms);
    s.(calls := ForgetDropped(c, s.calls, ms),
       sent := s.sent + Ids(Applications(ms)),
       inFlight := s.inFlight + AsSet(out),
       delivered := s.delivered + Applications(out))
  }

  function QueueSend(c: Config, s: State, m: Message): State {
    if s.batch > 0 || s.internalBatch then s.(queue := s.queue + [m]) else Send(c, s, [m])
  }

  function FlushBatch(c: Config, s: State): State {
    if s.queue == [] then s else Send(c, s.(queue := []), s.queue)
  }

  function EndBatch(c: Config, s: State): State
    requires s.batch > 0
  {
    var s1 := s.(batch := s.batch - 1);
    if s1.batch == 0 && !IsDisconnected(s1) && !s1.internalBatch then FlushBatch(c, s1) else s1
  }

  // ----------------------------------------------------------------------- retries and backoff

  function IncreaseBackoff(c: Config, s: State): State {
    if s.backoff < c.maxBackoff then s.(backoff := s.backoff + c.backoffIncrement) else s
  }

  function DelayedSend(s: State, o: Operation): State {
    s.(scheduled := Some(Scheduled(o, s.advice.interval + s.backoff)))
  }

  function DelayedConnect(s: State): State {
    DelayedSend(s.(status := Connecting), SendConnect)
  }

  function DelayedHandshake(s: State): State {
    DelayedSend(s.(status := Handshaking, internalBatch := true), SendHandshake)
  }

  function UpdateAdvice(s: State, advice: Option<Advice>): State {
    if advice.Some? then s.(advice := advice.value) else s
  }

  // ----------------------------------------------------------------------------- disconnecting

  function FailQueued(t: Callbacks.Table, ms: seq<Message>): Callbacks.Table
    decreases |ms|
  {
    if ms == [] then t
    else
      var t1 := if ms[0].kind.Subscribe? || ms[0].kind.Unsubscribe? then Callbacks.HandleCallback(t, ms[0].id)
                else Callbacks.FailMessage(t, ms[0].id);
      FailQueued(t1, ms[1..])
  }

  function Disconnect(s: State): State {
    s.(scheduled := None, clientId := None, status := Disconnected, batch := 0, backoff := 0, transport := false,
       queue := [], calls := FailQueued(s.calls, s.queue), failed := s.failed + IdSet(s.queue))
  }

  // ------------------------------------------------------------------------------- connecting

  function Numbered(s: State, k: Kind, hasCallback: bool): (State, Message) {
    var t := Callbacks.Register(s.calls, hasCallback);
    (s.(calls := t), Message(t.messageId, k, None))
  }

  /** `negotiates` tells whether some transport is accepted; without one the handshake throws half way. */
  function Handshake(c: Config, s: State, hasCallback: bool, negotiates: bool): Result<State, State> {
    var s1 := s.(clientId := None,
                 advice := if IsDisconnected(s) then c.advice else s.advice.(reconnect := Retry),
                 batch := 0, internalBatch := true, handshakeCallback := hasCallback);
    var (s2, m) := Numbered(s1, MetaHandshake, hasCallback);
    if !s2.transport && !negotiates then Err(s2)
    else Ok(Send(c, s2.(transport := true, status := Handshaking), [m]))
  }

  function Connect(c: Config, s: State): State {
    if IsDisconnected(s) then s
    else
      var (s1, m) := Numbered(s, MetaConnect, false);
      Send(c, s1.(status := Connecting), [m]).(status := Connected)
  }

  /** The public handshake() and disconnect(). */
  function StartSession(c: Config, s: State, hasCallback: bool, negotiates: bool): Result<State, State> {
    Handshake(c, s.(status := Disconnected), hasCallback, negotiates)
  }

  function StopSession(c: Config, s: State, hasCallback: bool): State {
    if IsDisconnected(s) then s
    else
      var (s1, m) := Numbered(s, MetaDisconnect, hasCallback);
      Send(c, s1.(status := Disconnecting), [m])
  }

  // ---------------------------------------------------------------------------------- replies

  function Acknowledge(s: State, id: nat): State {
    s.(calls := Callbacks.HandleCallback(s.calls, id))
  }

  function FailHandshake(c: Config, s: State, id: nat): State {
    var s1 := Acknowledge(s, id);
    if !IsDisconnected(s1) && s1.advice.reconnect != NoReconnect then DelayedHandshake(IncreaseBackoff(c, s1))
    else Disconnect(s1)
  }

  /** What a successful reply leads to: the advice to handshake again is not understood here. */
  function Proceed(s: State): Result<State, State> {
    if IsDisconnected(s) || s.advice.reconnect.NoReconnect? then Ok(Disconnect(s))
    else if s.advice.reconnect.Retry? then Ok(DelayedConnect(s.(backoff := 0)))
    else Err(s)
  }

  /** Without a transport, which a disconnection has dropped, the reply throws once the client id is stored. */
  function HandshakeSucceeded(c: Config, s: State, id: nat, clientId: Option<string>,
                              negotiates: bool): Result<State, State> {
    var s1 := s.(clientId := clientId);
    if !s1.transport then Err(s1)
    else if !negotiates then Ok(Disconnect(s1))
    else
      Proceed(Acknowledge(FlushBatch(c, s1.(internalBatch := false)), id))
  }

  function HandshakeFailed(c: Config, s: State, id: nat, negotiates: bool): Result<State, State> {
    if !s.transport then Err(s)
    else if !negotiates then Ok(FailHandshake(c, Disconnect(s), id))
    else Ok(FailHandshake(c, s, id).(transport := true))
  }

  function FailConnect(c: Config, s: State): Result<State, State> {
    if IsDisconnected(s) || s.advice.reconnect.NoReconnect? then Ok(Disconnect(s))
    else if s.advice.reconnect.Retry? then Ok(IncreaseBackoff(c, DelayedConnect(s)))
    else if s.advice.reconnect.Rehandshake? then Ok(DelayedHandshake(s.(backoff := 0)))
    else Err(s)
  }

  function ConnectResponse(c: Config, s: State, successful: bool): Result<State, State> {
    var s1 := s.(connected := successful);
    if !successful then FailConnect(c, s1)
    else Proceed(s1)
  }

  function DisconnectReported(s: State, id: nat): State {
    Acknowledge(Disconnect(s), id)
  }

  /** The outcome of an application message: an acknowledgement, a failure, or the data of a remote call. */
  datatype Verdict = Accepted | Refused | Data

  function ApplicationReported(s: State, m: Message, v: Verdict): State {
    s.(calls :=
       if v.Data? then Callbacks.HandleRemoteCall(s.calls, m.id)
       else if v.Accepted? || m.kind.Subscribe? || m.kind.Unsubscribe? then Callbacks.HandleCallback(s.calls, m.id)
       else Callbacks.FailMessage(s.calls, m.id))
  }

  // ------------------------------------------------------------------- application submissions

  function SubmitNumbered(c: Config, s: State, m: Message): State {
    QueueSend(c, s.(submitted := s.submitted + [m.id]), m)
  }

  /** publish, subscribe and unsubscribe; all of them throw on a disconnected client. */
  function Submit(c: Config, s: State, k: Kind, hasCallback: bool): State {
    if IsDisconnected(s) then s
    else
      var (s1, m) := Numbered(s, k, hasCallback);
      SubmitNumbered(c, s1, m)
  }

  function SubmitRemoteCall(c: Config, s: State, notifies: bool, timed: bool): State {
    if IsDisconnected(s) then s
    else
      var t := Callbacks.RegisterRemote(s.calls, notifies, timed);
      SubmitNumbered(c, s.(calls := t), Message(t.messageId, RemoteCall, None))
  }

  // ------------------------------------------------------------------------------------ steps

  datatype Event =
    | AppHandshake(hasCallback: bool, negotiates: bool)
    | AppDisconnect(hasCallback: bool)
    | AppSubmit(kind: Kind, hasCallback: bool)
    | AppRemoteCall(notifies: bool, timed: bool)
    | AppStartBatch
    | AppEndBatch
    | TimerFires(negotiates: bool)
    | RemoteCallTimer(id: nat)
    | HandshakeReply(m: Message, successful: bool, clientId: string, negotiates: bool, newAdvice: Option<Advice>)
    | HandshakeLost(m: Message, negotiates: bool)
    | ConnectReply(m: Message, successful: bool, newAdvice: Option<Advice>)
    | ConnectLost(m: Message)
    | DisconnectReply(m: Message, newAdvice: Option<Advice>)
    | ApplicationReply(m: Message, verdict: Verdict, newAdvice: Option<Advice>)
    | Unanswered(m: Message)

  predicate Reports(e: Event) {
    e.HandshakeReply? || e.HandshakeLost? || e.ConnectReply? || e.ConnectLost? || e.DisconnectReply? ||
    e.ApplicationReply? || e.Unanswered?
  }

  /** What the application does within a session. */
  predicate Submits(e: Event) {
    e.AppSubmit? || e.AppRemoteCall? || e.AppStartBatch? || e.AppEndBatch? || e.RemoteCallTimer?
  }

  /** A session starts on an idle client; batches are paired; the transport reports each handshake and each
      /meta/connect at most once, and anything else any number of times. */
  predicate Enabled(s: State, e: Event) {
    && (e.AppHandshake? ==> Idle(s))
    && (e.AppSubmit? ==> e.kind.Publish? || e.kind.Subscribe? || e.kind.Unsubscribe?)
    && (e.AppEndBatch? ==> s.batch > 0)
    && (e.TimerFires? ==> s.scheduled.Some?)
    && (e.RemoteCallTimer? ==> e.id in s.calls.timers)
    && (Reports(e) && IsOperation(e.m.kind) ==> e.m in s.inFlight)
    && (e.HandshakeReply? || e.HandshakeLost? ==> e.m.kind.MetaHandshake?)
    && (e.ConnectReply? || e.ConnectLost? ==> e.m.kind.MetaConnect?)
    && (e.DisconnectReply? ==> e.m.kind.MetaDisconnect?)
    && (e.ApplicationReply? ==> IsApplication(e.m.kind))
  }

  predicate Idle(s: State) {
    s.status.Disconnected? && s.scheduled.None? && forall m | m in s.inFlight :: !IsOperation(m.kind)
  }

  function Landed(s: State, m: Message): State {
    s.(inFlight := s.inFlight - {m})
  }

  /** Err marks a step that throws, with the state it leaves behind. */
  function Step(c: Config, s: State, e: Event): Result<State, State>
    requires Enabled(s, e)
  {
    match e
    case AppHandshake(hasCallback, negotiates) => StartSession(c, s, hasCallback, negotiates)
    case AppDisconnect(hasCallback) => Ok(StopSession(c, s, hasCallback))
    case AppSubmit(kind, hasCallback) => Ok(Submit(c, s, kind, hasCallback))
    case AppRemoteCall(notifies, timed) => Ok(SubmitRemoteCall(c, s, notifies, timed))
    case AppStartBatch => Ok(s.(batch := s.batch + 1))
    case AppEndBatch => Ok(EndBatch(c, s))
    case TimerFires(negotiates) =>
      var s1 := s.(scheduled := None);
      if s.scheduled.value.operation.SendConnect? then Ok(Connect(c, s1))
      else Handshake(c, s1, s1.handshakeCallback, negotiates)
    case RemoteCallTimer(id) => Ok(s.(calls := Callbacks.TimeOut(s.calls, id)))
    case HandshakeReply(m, successful, clientId, negotiates, newAdvice) =>
      var s1 := UpdateAdvice(Landed(s, m), newAdvice);
      if successful then HandshakeSucceeded(c, s1, m.id, Some(clientId), negotiates)
      else Ok(FailHandshake(c, s1, m.id))
    case HandshakeLost(m, negotiates) => HandshakeFailed(c, Landed(s, m), m.id, negotiates)
    case ConnectReply(m, successful, newAdvice) =>
      ConnectResponse(c, UpdateAdvice(Landed(s, m), newAdvice), successful)
    case ConnectLost(m) => FailConnect(c, Landed(s, m).(connected := false))
    case DisconnectReply(m, newAdvice) =>
      Ok(DisconnectReported(UpdateAdvice(Landed(s, m), newAdvice), m.id))
    case ApplicationReply(m, verdict, newAdvice) =>
      Ok(ApplicationReported(UpdateAdvice(Landed(s, m), newAdvice), m, verdict))
    case Unanswered(m) => Ok(Landed(s, m))
  }

  function After(c: Config, s: State, e: Event): State
    requires Enabled(s, e)
  {
    match Step(c, s, e)
    case Ok(t) => t
    case Err(t) => t
  }
}
