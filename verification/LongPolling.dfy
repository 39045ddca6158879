/** The client on top of a request transport: its /meta/connect is never refused as a second long poll. */
module LongPolling {
  import opened Wrappers
  import opened SessionSafety
  import SessionOrder
  import B = BayeuxSession
  import R = RequestScheduling
  import Callbacks

  /** `reporting` is the request whose response or failure the client is handling. */
  datatype State = State(session: B.State, transport: R.State, reporting: Option<R.Request>)

  /** A call of the application or a timer of the client; the network, a timeout or a drain reporting a request; the
      client handling one message of that report; and an abort or a reset of the transport, at any time. */
  datatype Event =
    | Client(e: B.Event, url: string, sync: bool)
    | Network(report: R.Event)
    | Handles(e: B.Event, url: string, sync: bool)
    | Resets

  // ------------------------------------------------------------------ what the client transmits

  function Fresh(c: B.Config, s: B.State, clientId: Option<string>, k: B.Kind): seq<B.Message> {
    B.Outgoing(c, clientId, [B.Message(s.calls.messageId + 1, k, None)])
  }

  function Direct(c: B.Config, s: B.State, k: B.Kind): seq<B.Message> {
    if B.IsDisconnected(s) || s.batch > 0 || s.internalBatch then [] else Fresh(c, s, s.clientId, k)
  }

  function Handshakes(c: B.Config, s: B.State, negotiates: bool): seq<B.Message> {
    if !s.transport && !negotiates then [] else Fresh(c, s, None, B.MetaHandshake)
  }

  /** The messages that the step hands to the transport, as one envelope. */
  function Emission(c: B.Config, s: B.State, e: B.Event): seq<B.Message>
    requires B.Enabled(s, e)
  {
    match e
    case AppHandshake(_, negotiates) => Handshakes(c, s, negotiates)
    case AppDisconnect(_) => if B.IsDisconnected(s) then [] else Fresh(c, s, s.clientId, B.MetaDisconnect)
    case AppSubmit(kind, _) => Direct(c, s, kind)
    case AppRemoteCall(_, _) => Direct(c, s, B.RemoteCall)
    case AppEndBatch =>
      if s.batch > 1 || B.IsDisconnected(s) || s.internalBatch then [] else B.Outgoing(c, s.clientId, s.queue)
    case TimerFires(negotiates) =>
      if s.scheduled.value.operation.SendHandshake? then Handshakes(c, s, negotiates)
      else if B.IsDisconnected(s) then [] else Fresh(c, s, s.clientId, B.MetaConnect)
    case HandshakeReply(_, successful, clientId, negotiates, _) =>
      if successful && s.transport && negotiates then B.Outgoing(c, Some(clientId), s.queue) else []
    case _ => []
  }

  function Kept(s: B.State, e: B.Event): set<B.Message> {
    if B.Reports(e) then s.inFlight - {e.m} else s.inFlight
  }

  /** It is exactly what the step adds to the messages in flight and delivered. */
  ghost predicate Leaves(c: B.Config, s: B.State, e: B.Event)
    requires B.Enabled(s, e)
  {
    Adds(Kept(s, e), s.delivered, B.After(c, s, e), Emission(c, s, e))
  }

  /** t has these messages in flight besides `kept`, and delivered those of the application besides `before`. */
  ghost predicate Adds(kept: set<B.Message>, before: seq<B.Message>, t: B.State, out: seq<B.Message>) {
    t.inFlight == kept + B.AsSet(out) && t.delivered == before + B.Applications(out)
  }

  lemma NothingAdded(s: B.State, t: B.State)
    requires t.inFlight == s.inFlight && t.delivered == s.delivered
    ensures Adds(s.inFlight, s.delivered, t, [])
  {
    assert B.AsSet([]) == {} && s.delivered + [] == s.delivered;
  }

  lemma SubmitLeaves(c: B.Config, s: B.State, m: B.Message)
    ensures Adds(s.inFlight, s.delivered, B.SubmitNumbered(c, s, m),
                 if s.batch > 0 || s.internalBatch then [] else B.Outgoing(c, s.clientId, [m]))
  {
    if s.batch > 0 || s.internalBatch {
      NothingAdded(s, B.SubmitNumbered(c, s, m));
    }
  }

  lemma SubmissionLeaves(c: B.Config, s: B.State, e: B.Event)
    requires B.Enabled(s, e) && B.Submits(e)
    ensures Leaves(c, s, e)
  {
    match e
    case AppSubmit(kind, hasCallback) =>
      var (s1, m) := B.Numbered(s, kind, hasCallback);
      SubmitLeaves(c, s1, m);
      NothingAdded(s, s);
    case AppRemoteCall(notifies, timed) =>
      var t := Callbacks.RegisterRemote(s.calls, notifies, timed);
      SubmitLeaves(c, s.(calls := t), B.Message(t.messageId, B.RemoteCall, None));
      NothingAdded(s, s);
    case AppStartBatch => NothingAdded(s, B.After(c, s, e));
    case AppEndBatch => EndBatchLeaves(c, s);
    case RemoteCallTimer(id) => NothingAdded(s, B.After(c, s, e));
  }

  lemma EndBatchLeaves(c: B.Config, s: B.State)
    requires s.batch > 0
    ensures Leaves(c, s, B.AppEndBatch)
  {
    NothingAdded(s, s.(batch := s.batch - 1));
  }

  lemma ConnectTimerLeaves(c: B.Config, s: B.State, e: B.Event)
    requires B.Enabled(s, e) && e.TimerFires? && s.scheduled.value.operation.SendConnect?
    ensures Leaves(c, s, e)
  {
  }

  lemma HandshakeTimerLeaves(c: B.Config, s: B.State, e: B.Event)
    requires B.Enabled(s, e) && e.TimerFires? && s.scheduled.value.operation.SendHandshake?
    ensures Leaves(c, s, e)
  {
  }

  lemma SucceededLeaves(c: B.Config, s: B.State, id: nat, clientId: Option<string>, negotiates: bool)
    ensures Adds(s.inFlight, s.delivered, Left(B.HandshakeSucceeded(c, s, id, clientId, negotiates)),
                 if s.transport && negotiates then B.Outgoing(c, clientId, s.queue) else [])
  {
    if !s.transport || !negotiates {
      NothingAdded(s, Left(B.HandshakeSucceeded(c, s, id, clientId, negotiates)));
    }
  }

  lemma HandshakeReplyLeaves(c: B.Config, s: B.State, e: B.Event)
    requires B.Enabled(s, e) && e.HandshakeReply?
    ensures Leaves(c, s, e)
  {
    var s1 := B.UpdateAdvice(B.Landed(s, e.m), e.newAdvice);
    if e.successful {
      SucceededLeaves(c, s1, e.m.id, Some(e.clientId), e.negotiates);
    } else {
      FailHandshakeIsQuiet(c, s1, e.m.id);
      FailHandshakeDelivers(c, s1, e.m.id);
      NothingAdded(s1, B.FailHandshake(c, s1, e.m.id));
    }
  }

  lemma HandshakeLostLeaves(c: B.Config, s: B.State, e: B.Event)
    requires B.Enabled(s, e) && e.HandshakeLost?
    ensures Leaves(c, s, e)
  {
    var s0 := B.Landed(s, e.m);
    HandshakeFailedIsQuiet(c, s0, e.m.id, e.negotiates);
    ResponsesDeliverNothing(c, s0, e.m.id, true, e.negotiates);
    NothingAdded(s0, B.After(c, s, e));
  }

  lemma ConnectReplyLeaves(c: B.Config, s: B.State, e: B.Event)
    requires B.Enabled(s, e) && e.ConnectReply?
    ensures Leaves(c, s, e)
  {
    var s1 := B.UpdateAdvice(B.Landed(s, e.m), e.newAdvice);
    ConnectResponseIsQuiet(c, s1, e.successful);
    ResponsesDeliverNothing(c, s1, e.m.id, e.successful, true);
    NothingAdded(s1, B.After(c, s, e));
  }

  lemma ConnectLostLeaves(c: B.Config, s: B.State, e: B.Event)
    requires B.Enabled(s, e) && e.ConnectLost?
    ensures Leaves(c, s, e)
  {
    var s1 := B.Landed(s, e.m).(connected := false);
    FailConnectIsQuiet(c, s1);
    FailConnectDelivers(c, s1);
    NothingAdded(s1, B.After(c, s, e));
  }

  lemma OtherReportLeaves(c: B.Config, s: B.State, e: B.Event)
    requires B.Enabled(s, e) && (e.DisconnectReply? || e.ApplicationReply? || e.Unanswered?)
    ensures Leaves(c, s, e)
  {
    NothingAdded(B.Landed(s, e.m), B.After(c, s, e));
  }

  lemma StepLeaves(c: B.Config, s: B.State, e: B.Event)
    requires B.Enabled(s, e)
    ensures Leaves(c, s, e)
  {
    match e
    case AppHandshake(_, _) =>
    case AppDisconnect(hasCallback) =>
    case TimerFires(_) =>
      if s.scheduled.value.operation.SendConnect? {
        ConnectTimerLeaves(c, s, e);
      } else {
        HandshakeTimerLeaves(c, s, e);
      }
    case HandshakeReply(_, _, _, _, _) => HandshakeReplyLeaves(c, s, e);
    case HandshakeLost(_, _) => HandshakeLostLeaves(c, s, e);
    case ConnectReply(_, _, _) => ConnectReplyLeaves(c, s, e);
    case ConnectLost(_) => ConnectLostLeaves(c, s, e);
    case _ =>
      if B.Submits(e) {
        SubmissionLeaves(c, s, e);
      } else {
        OtherReportLeaves(c, s, e);
      }
  }

  // ------------------------------------------------------------------------------ coupled steps

  function Enveloped(out: seq<B.Message>, url: string, sync: bool): R.Envelope {
    R.Envelope(url, sync, seq(|out|, i requires 0 <= i < |out| => R.Message(out[i].id)))
  }

  /** transport.send, with the flag that only a /meta/connect carries. */
  function Transmit(rc: R.Config, t: R.State, out: seq<B.Message>, url: string, sync: bool): Result<R.State, string> {
    if out == [] then Ok(t)
    else if out[0].kind.MetaConnect? then R.MetaConnectSend(t, Enveloped(out, url, sync))
    else Ok(R.Send(rc, t, Enveloped(out, url, sync)))
  }

  /** A report of the transport concerns the messages of its request: that of a /meta/connect only its own. */
  ghost predicate Enabled(x: State, e: Event) {
    match e
    case Client(e, _, _) => B.Enabled(x.session, e) && !B.Reports(e)
    case Network(report) => R.Enabled(x.transport, report) && !report.Submit? && !report.SubmitMetaConnect?
    case Handles(e, _, _) =>
      && B.Enabled(x.session, e) && B.Reports(e) && x.reporting.Some?
      && (e.m.kind.MetaConnect? ==>
            x.reporting.value.metaConnect && x.reporting.value.envelope.messages == [R.Message(e.m.id)])
    case Resets => true
  }

  function Reported(t: R.State, u: R.State): Option<R.Request> {
    if |u.reports| > |t.reports| then Some(u.reports[|u.reports| - 1].request) else None
  }

  function After(c: B.Config, rc: R.Config, x: State, e: Event): State
    requires Enabled(x, e)
  {
    match e
    case Client(e, url, sync) => Drive(c, rc, x, e, url, sync).(reporting := None)
    case Network(report) =>
      var t := R.After(rc, x.transport, report);
      State(x.session, t, Reported(x.transport, t))
    case Handles(e, url, sync) => Drive(c, rc, x, e, url, sync)
    case Resets => x.(transport := x.transport.(metaConnectRequest := None, requests := [], envelopes := []))
  }

  /** The client takes a step and hands what it sends to the transport. */
  function Drive(c: B.Config, rc: R.Config, x: State, e: B.Event, url: string, sync: bool): State
    requires B.Enabled(x.session, e)
  {
    var sent := Transmit(rc, x.transport, Emission(c, x.session, e), url, sync);
    State(B.After(c, x.session, e), if sent.Ok? then sent.value else x.transport, x.reporting)
  }

  ghost predicate IsRun(c: B.Config, rc: R.Config, states: seq<State>, events: seq<Event>) {
    && |states| == |events| + 1
    && states[0] == State(B.Init(c), R.INIT, None)
    && forall i | 0 <= i < |events| ::
         Enabled(states[i], events[i]) && states[i + 1] == After(c, rc, states[i], events[i])
  }

  // ---------------------------------------------------------------------------- the invariant

  /** The long poll that the transport carries is a /meta/connect that the client waits for. */
  ghost predicate Matched(s: B.State, t: R.State) {
    t.metaConnectRequest.Some? ==> exists m :: Awaits(s, t.metaConnectRequest.value, m)
  }

  predicate Awaits(s: B.State, r: R.Request, m: B.Message) {
    m in s.inFlight && m.kind.MetaConnect? && r.metaConnect && r.envelope.messages == [R.Message(m.id)]
  }

  ghost predicate Inv(x: State) {
    && OneOperation(x.session) && QueueOk(x.session)
    && Matched(x.session, x.transport)
    && (x.reporting.Some? && x.reporting.value.metaConnect ==> x.transport.metaConnectRequest.None?)
  }

  lemma {:induction false} ApplicationsOnly(c: B.Config, clientId: Option<string>, ms: seq<B.Message>)
    requires forall m | m in ms :: B.IsApplication(m.kind)
    ensures forall m | m in B.Outgoing(c, clientId, ms) :: B.IsApplication(m.kind)
  {
    forall m | m in B.Outgoing(c, clientId, ms) ensures B.IsApplication(m.kind) {
      OutgoingElems(c, clientId, ms, m);
    }
  }

  /** Only a timer transmits a /meta/connect, and that alone. */
  lemma OnlyTimersConnect(c: B.Config, s: B.State, e: B.Event)
    requires B.Enabled(s, e) && QueueOk(s)
    ensures var out := Emission(c, s, e);
            out != [] && out[0].kind.MetaConnect? ==>
              e.TimerFires? && |out| == 1
  {
    match e
    case AppHandshake(_, _) => FreshKind(c, s, None, B.MetaHandshake);
    case AppDisconnect(_) => FreshKind(c, s, s.clientId, B.MetaDisconnect);
    case AppSubmit(kind, _) => FreshKind(c, s, s.clientId, kind);
    case AppRemoteCall(_, _) => FreshKind(c, s, s.clientId, B.RemoteCall);
    case AppEndBatch => ApplicationsOnly(c, s.clientId, s.queue);
    case TimerFires(_) =>
      FreshKind(c, s, None, B.MetaHandshake);
      FreshKind(c, s, s.clientId, B.MetaConnect);
    case HandshakeReply(_, _, clientId, _, _) => ApplicationsOnly(c, Some(clientId), s.queue);
    case _ =>
  }

  lemma FreshKind(c: B.Config, s: B.State, clientId: Option<string>, k: B.Kind)
    ensures var out := Fresh(c, s, clientId, k);
            |out| <= 1 && forall m | m in out :: m.kind == k
  {
    var ms := [B.Message(s.calls.messageId + 1, k, None)];
    assert ms[1..] == [] && B.Outgoing(c, clientId, ms[1..]) == [];
  }

  /** While a /meta/connect is scheduled none is in flight, so the transport accepts it. */
  lemma TransmitWorks(c: B.Config, rc: R.Config, x: State, e: B.Event, url: string, sync: bool)
    requires Inv(x) && B.Enabled(x.session, e)
    ensures Transmit(rc, x.transport, Emission(c, x.session, e), url, sync).Ok?
  {
    OnlyTimersConnect(c, x.session, e);
    if x.transport.metaConnectRequest.Some? {
      var m :| Awaits(x.session, x.transport.metaConnectRequest.value, m);
      assert m in x.session.inFlight && B.IsOperation(m.kind);
    }
  }

  /** Every message of the client but the one just reported stays in flight. */
  lemma DriveKeeps(c: B.Config, rc: R.Config, x: State, e: B.Event, url: string, sync: bool)
    requires Inv(x) && B.Enabled(x.session, e)
    requires B.Reports(e) && e.m.kind.MetaConnect? ==> x.transport.metaConnectRequest.None?
    ensures var y := Drive(c, rc, x, e, url, sync);
            && OneOperation(y.session) && QueueOk(y.session) && Matched(y.session, y.transport)
            && (B.Reports(e) ==> y.transport.metaConnectRequest == x.transport.metaConnectRequest)
  {
    var out := Emission(c, x.session, e);
    var y := Drive(c, rc, x, e, url, sync);
    StepOneOperation(c, x.session, e);
    TransmitWorks(c, rc, x, e, url, sync);
    OnlyTimersConnect(c, x.session, e);
    StepLeaves(c, x.session, e);
    if out != [] && out[0].kind.MetaConnect? {
      assert Enveloped(out, url, sync).messages == [R.Message(out[0].id)];
      assert out[0] in B.AsSet(out);
      assert Awaits(y.session, y.transport.metaConnectRequest.value, out[0]);
    } else if y.transport.metaConnectRequest.Some? {
      var m :| Awaits(x.session, x.transport.metaConnectRequest.value, m);
      assert m in Kept(x.session, e);
      assert Awaits(y.session, y.transport.metaConnectRequest.value, m);
    }
  }

  /** A report ends its long poll, and another report leaves it. */
  lemma NetworkKeeps(rc: R.Config, t: R.State, e: R.Event)
    requires R.Enabled(t, e) && !e.Submit? && !e.SubmitMetaConnect?
    ensures var u := R.After(rc, t, e);
            && (u.metaConnectRequest == t.metaConnectRequest || u.metaConnectRequest.None?)
            && (Reported(t, u).Some? && Reported(t, u).value.metaConnect ==> u.metaConnectRequest.None?)
  {
  }

  lemma StepKeeps(c: B.Config, rc: R.Config, x: State, e: Event)
    requires Inv(x) && Enabled(x, e)
    ensures Inv(After(c, rc, x, e))
  {
    match e
    case Client(e, url, sync) => DriveKeeps(c, rc, x, e, url, sync);
    case Network(report) => NetworkKeeps(rc, x.transport, report);
    case Handles(e, url, sync) => DriveKeeps(c, rc, x, e, url, sync);
    case Resets =>
  }

  lemma {:induction false} RunKeeps(c: B.Config, rc: R.Config, states: seq<State>, events: seq<Event>, i: nat)
    requires IsRun(c, rc, states, events) && i <= |events|
    ensures Inv(states[i])
  {
    if i > 0 {
      RunKeeps(c, rc, states, events, i - 1);
      assert states[i - 1 + 1] == After(c, rc, states[i - 1], events[i - 1]);
      StepKeeps(c, rc, states[i - 1], events[i - 1]);
    }
  }

  /** In every run of the client on a request transport, with timeouts, lost requests, disconnections and resets in any
      order, whatever the client sends is accepted: "Concurrent metaConnect requests not allowed" is never thrown. */
  lemma LongPollNeverRefused(c: B.Config, rc: R.Config, states: seq<State>, events: seq<Event>, i: nat)
    requires IsRun(c, rc, states, events) && i < |events| && (events[i].Client? || events[i].Handles?)
    ensures var x, e := states[i], events[i];
            Transmit(rc, x.transport, Emission(c, x.session, e.e), e.url, e.sync).Ok?
  {
    RunKeeps(c, rc, states, events, i);
    TransmitWorks(c, rc, states[i], events[i].e, events[i].url, events[i].sync);
  }

  lemma FreshPasses(c: B.Config, s: B.State, clientId: Option<string>, k: B.Kind)
    requires c.passes(s.calls.messageId + 1)
    ensures Fresh(c, s, clientId, k) == [B.Stamp(B.Message(s.calls.messageId + 1, k, None), clientId)]
  {
    var ms := [B.Message(s.calls.messageId + 1, k, None)];
    assert ms[1..] == [] && B.Outgoing(c, clientId, ms[1..]) == [];
  }

  // ------------------------------------------------------------------- a run with a long poll

  const FIRST := B.Message(1, B.MetaHandshake, None)

  function FirstRequest(url: string): R.Request {
    R.Request(1, false, R.Envelope(url, false, [R.Message(1)]))
  }

  const START := Client(B.AppHandshake(false, true), "", false)

  lemma HandshakeInFlight(c: B.Config, rc: R.Config) returns (y: State)
    requires c.passes(1) && rc.maxConnections >= 2
    ensures y == After(c, rc, State(B.Init(c), R.INIT, None), START)
    ensures y.session.inFlight == {FIRST} && y.session.status.Handshaking? && y.session.transport
    ensures y.session.calls.messageId == 1 && y.session.advice == c.advice && y.session.queue == []
    ensures y.transport.wire == {FirstRequest("")} && y.transport.expired == {} && y.transport.metaConnectRequest.None?
  {
    var x := State(B.Init(c), R.INIT, None);
    FreshPasses(c, x.session, None, B.MetaHandshake);
    assert Emission(c, x.session, START.e) == [FIRST];
    assert Enveloped([FIRST], "", false) == FirstRequest("").envelope;
    y := After(c, rc, x, START);
    SessionOrder.ForgetKeepsId(c, Callbacks.Register(Callbacks.EMPTY, false), [FIRST]);
    StepLeaves(c, x.session, START.e);
    assert y.session.inFlight == {} + B.AsSet([FIRST]);
  }

  lemma ConnectScheduled(c: B.Config, s: B.State)
    requires FIRST in s.inFlight && s.status.Handshaking? && s.transport && s.advice.reconnect.Retry? && s.queue == []
    requires c.passes(s.calls.messageId + 1)
    ensures var e := B.HandshakeReply(FIRST, true, "client", true, None);
            var t := B.After(c, s, e);
            && B.Enabled(s, e) && Emission(c, s, e) == []
            && t.scheduled.Some? && t.scheduled.value.operation.SendConnect? && !B.IsDisconnected(t)
            && t.calls.messageId == s.calls.messageId
  {
  }

  lemma TimerSendsLongPoll(c: B.Config, rc: R.Config, x: State)
    requires c.passes(x.session.calls.messageId + 1) && !B.IsDisconnected(x.session)
    requires x.session.scheduled.Some? && x.session.scheduled.value.operation.SendConnect?
    requires x.transport.metaConnectRequest.None?
    ensures After(c, rc, x, Client(B.TimerFires(true), "", false)).transport.metaConnectRequest.Some?
  {
    FreshPasses(c, x.session, x.session.clientId, B.MetaConnect);
  }

  lemma Extend(c: B.Config, rc: R.Config, states: seq<State>, events: seq<Event>, e: Event)
    returns (xs: seq<State>, es: seq<Event>)
    requires IsRun(c, rc, states, events) && Enabled(states[|events|], e)
    ensures IsRun(c, rc, xs, es) && es == events + [e] && xs == states + [After(c, rc, states[|events|], e)]
  {
    xs, es := states + [After(c, rc, states[|events|], e)], events + [e];
    forall i | 0 <= i < |es| ensures Enabled(xs[i], es[i]) && xs[i + 1] == After(c, rc, xs[i], es[i]) {
      assert i < |events| ==> states[i + 1] == After(c, rc, states[i], events[i]);
    }
  }

  lemma HandshakeAnswered(c: B.Config, rc: R.Config) returns (states: seq<State>, events: seq<Event>)
    requires c.passes(1) && rc.maxConnections >= 2
    ensures IsRun(c, rc, states, events) && |events| == 2
    ensures var x := states[2];
            && x.session.inFlight == {FIRST} && x.session.status.Handshaking? && x.session.transport
            && x.session.calls.messageId == 1 && x.session.advice == c.advice && x.session.queue == []
            && x.transport.metaConnectRequest.None? && x.reporting.Some?
  {
    states, events := [State(B.Init(c), R.INIT, None)], [];
    var x1 := HandshakeInFlight(c, rc);
    states, events := Extend(c, rc, states, events, START);
    states, events := Extend(c, rc, states, events, Network(R.Wire(FirstRequest(""), R.Replied)));
  }

  /** A session that is accepted ends up with its long poll in flight. */
  lemma LongPollHappens(c: B.Config, rc: R.Config) returns (states: seq<State>, events: seq<Event>)
    requires c.passes(1) && c.passes(2) && rc.maxConnections >= 2 && c.advice.reconnect.Retry?
    ensures IsRun(c, rc, states, events) && states[|events|].transport.metaConnectRequest.Some?
  {
    states, events := HandshakeAnswered(c, rc);
    ConnectScheduled(c, states[2].session);
    states, events := Extend(c, rc, states, events,
                             Handles(B.HandshakeReply(FIRST, true, "client", true, None), "", false));
    TimerSendsLongPoll(c, rc, states[3]);
    states, events := Extend(c, rc, states, events, Client(B.TimerFires(true), "", false));
  }
}
