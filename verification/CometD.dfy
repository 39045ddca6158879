/** The client object: its variables updated in place by the functions of the source, each meeting the function of
    BayeuxSession that it is specified by. A method that can throw returns whether it did not. */
module CometD {
  import opened Wrappers
  import opened BayeuxSession
  import Callbacks

  /** The messages already stamped, before and after one more is. */
  lemma OutgoingNext(c: Config, clientId: Option<string>, before: seq<Message>, rest: seq<Message>)
    requires rest != []
    ensures before + Outgoing(c, clientId, rest) ==
            (if c.passes(rest[0].id) then before + [Stamp(rest[0], clientId)] else before)
            + Outgoing(c, clientId, rest[1..])
  {
  }

  class Client {
    const config: Config
    var status: Status
    var transport: bool
    var clientId: Option<string>
    var batch: nat
    var messageQueue: seq<Message>
    var internalBatch: bool
    var backoff: nat
    var scheduledSend: Option<Scheduled>
    var advice: Advice
    var handshakeCallback: bool
    var connected: bool
    var calls: Callbacks.Table
    ghost var inFlight: set<Message>
    ghost var submitted: seq<nat>
    ghost var sent: seq<nat>
    ghost var failed: set<nat>
    ghost var delivered: seq<Message>

    constructor (config: Config)
      ensures this.config == config && View() == Init(config)
    {
      this.config := config;
      status, transport, clientId, batch, messageQueue := Disconnected, false, None, 0, [];
      internalBatch, backoff, scheduledSend, advice := false, 0, None, config.advice;
      handshakeCallback, connected, calls := false, false, Callbacks.EMPTY;
      inFlight, submitted, sent, failed, delivered := {}, [], [], {}, [];
    }

    ghost function View(): State
      reads this
    {
      State(status, transport, clientId, batch, messageQueue, internalBatch, backoff, scheduledSend, advice,
            handshakeCallback, connected, calls, inFlight, submitted, sent, failed, delivered)
    }

    /** Stamp each message and pass it through the extensions, splicing the dropped ones out of the list. */
    method StampAndFilter(messages: seq<Message>) returns (list: seq<Message>)
      modifies this`calls
      ensures list == Outgoing(config, clientId, messages)
      ensures calls == ForgetDropped(config, old(calls), messages)
    {
      list := messages;
      var i := 0;
      ghost var done := 0;
      while i < |list|
        invariant 0 <= i <= |list| && 0 <= done <= |messages|
        invariant list[i..] == messages[done..]
        invariant list[..i] + Outgoing(config, clientId, messages[done..]) == Outgoing(config, clientId, messages)
        invariant ForgetDropped(config, calls, messages[done..]) == ForgetDropped(config, old(calls), messages)
        decreases |list| - i
      {
        var message := Stamp(list[i], clientId);
        assert messages[done..][0] == list[i] && messages[done..][1..] == messages[done + 1..];
        assert list[i..][1..] == list[i + 1..];
        OutgoingNext(config, clientId, list[..i], messages[done..]);
        if config.passes(message.id) {
          list := list[i := message];
          i := i + 1;
        } else {
          calls := Callbacks.Forget(calls, message.id);
          list := list[..i] + list[i + 1..];
        }
        done := done + 1;
      }
      assert messages[done..] == [];
    }

    method SendMessages(messages: seq<Message>)
      modifies this`calls, this`inFlight, this`sent, this`delivered
      ensures View() == Send(config, old(View()), messages)
    {
      var list := StampAndFilter(messages);
      sent := sent + Ids(Applications(messages));
      inFlight := inFlight + AsSet(list);
      delivered := delivered + Applications(list);
    }

    method QueueOrSend(message: Message)
      modifies this
      ensures View() == QueueSend(config, old(View()), message)
    {
      if batch > 0 || internalBatch {
        messageQueue := messageQueue + [message];
      } else {
        SendMessages([message]);
      }
    }

    method Flush()
      modifies this
      ensures View() == FlushBatch(config, old(View()))
    {
      var messages := messageQueue;
      messageQueue := [];
      if |messages| > 0 {
        SendMessages(messages);
      }
    }

    predicate Stopped()
      reads this`status
    {
      status.Disconnecting? || status.Disconnected?
    }

    method OpenBatch()
      modifies this`batch
      ensures View() == After(config, old(View()), AppStartBatch)
    {
      batch := batch + 1;
    }

    method CloseBatch()
      requires batch > 0
      modifies this
      ensures View() == EndBatch(config, old(View()))
    {
      batch := batch - 1;
      if batch == 0 && !Stopped() && !internalBatch {
        Flush();
      }
    }

    method GrowBackoff()
      modifies this`backoff
      ensures View() == IncreaseBackoff(config, old(View()))
    {
      if backoff < config.maxBackoff {
        backoff := backoff + config.backoffIncrement;
      }
    }

    method Schedule(operation: Operation)
      modifies this`scheduledSend
      ensures View() == DelayedSend(old(View()), operation)
    {
      scheduledSend := None;
      var time := advice.interval + backoff;
      scheduledSend := Some(Scheduled(operation, time));
    }

    method ScheduleConnect()
      modifies this`status, this`scheduledSend
      ensures View() == DelayedConnect(old(View()))
    {
      status := Connecting;
      Schedule(SendConnect);
    }

    method ScheduleHandshake()
      modifies this`status, this`internalBatch, this`scheduledSend
      ensures View() == DelayedHandshake(old(View()))
    {
      status := Handshaking;
      internalBatch := true;
      Schedule(SendHandshake);
    }

    method AdoptAdvice(newAdvice: Option<Advice>)
      modifies this`advice
      ensures View() == UpdateAdvice(old(View()), newAdvice)
    {
      if newAdvice.Some? {
        advice := newAdvice.value;
      }
    }

    /** The loop of handleFailure over the messages that were waiting. */
    method FailMessages(messages: seq<Message>)
      modifies this`calls
      ensures calls == FailQueued(old(calls), messages)
    {
      for i := 0 to |messages|
        invariant FailQueued(calls, messages[i..]) == FailQueued(old(calls), messages)
      {
        var message := messages[i];
        assert messages[i..][0] == message && messages[i..][1..] == messages[i + 1..];
        if message.kind.Subscribe? || message.kind.Unsubscribe? {
          calls := Callbacks.HandleCallback(calls, message.id);
        } else {
          calls := Callbacks.FailMessage(calls, message.id);
        }
      }
    }

    method FailWaiting()
      modifies this`messageQueue, this`calls, this`failed
      ensures var s := old(View());
              View() == s.(queue := [], calls := FailQueued(s.calls, s.queue), failed := s.failed + IdSet(s.queue))
    {
      if |messageQueue| > 0 {
        var messages := messageQueue;
        messageQueue := [];
        FailMessages(messages);
        failed := failed + IdSet(messages);
      }
    }

    method ResetConnection()
      modifies this`scheduledSend, this`clientId, this`status, this`batch, this`backoff, this`transport
      ensures View() == old(View()).(scheduled := None, clientId := None, status := Disconnected, batch := 0,
                                     backoff := 0, transport := false)
    {
      scheduledSend := None;
      clientId := None;
      status := Disconnected;
      batch := 0;
      backoff := 0;
      transport := false;
    }

    method DropConnection()
      modifies this
      ensures View() == Disconnect(old(View()))
    {
      ResetConnection();
      FailWaiting();
    }

    method NextMessage(kind: Kind, hasCallback: bool) returns (message: Message)
      modifies this`calls
      ensures (View(), message) == Numbered(old(View()), kind, hasCallback)
    {
      calls := Callbacks.Register(calls, hasCallback);
      message := Message(calls.messageId, kind, None);
    }

    /** The first half of the handshake, which starts the internal batch. */
    method ResetForHandshake(hasCallback: bool)
      modifies this
      ensures var s := old(View());
              View() == s.(clientId := None,
                           advice := if IsDisconnected(s) then config.advice else s.advice.(reconnect := Retry),
                           batch := 0, internalBatch := true, handshakeCallback := hasCallback)
    {
      clientId := None;
      if Stopped() {
        advice := config.advice;
      } else {
        advice := advice.(reconnect := Retry);
      }
      batch := 0;
      internalBatch := true;
      handshakeCallback := hasCallback;
    }

    method StartHandshake(hasCallback: bool, negotiates: bool) returns (ok: bool)
      modifies this
      ensures var r := Handshake(config, old(View()), hasCallback, negotiates);
              ok == r.Ok? && View() == if ok then r.value else r.error
    {
      ResetForHandshake(hasCallback);
      var message := NextMessage(MetaHandshake, hasCallback);
      if !transport {
        if !negotiates {
          return false;
        }
        transport := true;
      }
      status := Handshaking;
      SendMessages([message]);
      return true;
    }

    method SendConnectMessage()
      modifies this
      ensures View() == Connect(config, old(View()))
    {
      if !Stopped() {
        var message := NextMessage(MetaConnect, false);
        status := Connecting;
        SendMessages([message]);
        status := Connected;
      }
    }

    method HandshakeSession(hasCallback: bool, negotiates: bool) returns (ok: bool)
      modifies this
      ensures var r := StartSession(config, old(View()), hasCallback, negotiates);
              ok == r.Ok? && View() == if ok then r.value else r.error
    {
      status := Disconnected;
      ok := StartHandshake(hasCallback, negotiates);
    }

    method DisconnectSession(hasCallback: bool)
      modifies this
      ensures View() == StopSession(config, old(View()), hasCallback)
    {
      if Stopped() {
        return;
      }
      var message := NextMessage(MetaDisconnect, hasCallback);
      status := Disconnecting;
      SendMessages([message]);
    }

    /** publish, subscribe and unsubscribe, up to the listener table. */
    method SubmitMessage(kind: Kind, hasCallback: bool) returns (ok: bool)
      modifies this
      ensures ok <==> !IsDisconnected(old(View()))
      ensures View() == Submit(config, old(View()), kind, hasCallback)
    {
      if Stopped() {
        return false;
      }
      var message := NextMessage(kind, hasCallback);
      submitted := submitted + [message.id];
      QueueOrSend(message);
      return true;
    }

    method MakeRemoteCall(notifies: bool, timed: bool) returns (ok: bool)
      modifies this
      ensures ok <==> !IsDisconnected(old(View()))
      ensures View() == SubmitRemoteCall(config, old(View()), notifies, timed)
    {
      if Stopped() {
        return false;
      }
      calls := Callbacks.RegisterRemote(calls, notifies, timed);
      var message := Message(calls.messageId, RemoteCall, None);
      submitted := submitted + [message.id];
      QueueOrSend(message);
      return true;
    }

    method RunScheduled(negotiates: bool) returns (ok: bool)
      requires scheduledSend.Some?
      modifies this
      ensures ok == Step(config, old(View()), TimerFires(negotiates)).Ok?
      ensures View() == After(config, old(View()), TimerFires(negotiates))
    {
      var operation := scheduledSend.value.operation;
      scheduledSend := None;
      ok := true;
      if operation.SendConnect? {
        SendConnectMessage();
      } else {
        ok := StartHandshake(handshakeCallback, negotiates);
      }
    }

    method CallBack(id: nat)
      modifies this`calls
      ensures View() == Acknowledge(old(View()), id)
    {
      calls := Callbacks.HandleCallback(calls, id);
    }

    method HandshakeUnsuccessful(id: nat)
      modifies this
      ensures View() == FailHandshake(config, old(View()), id)
    {
      CallBack(id);
      var retry := !Stopped() && advice.reconnect != NoReconnect;
      if retry {
        GrowBackoff();
        ScheduleHandshake();
      } else {
        DropConnection();
      }
    }

    method HandshakeSuccessful(id: nat, newClientId: Option<string>, negotiates: bool) returns (ok: bool)
      modifies this
      ensures var r := HandshakeSucceeded(config, old(View()), id, newClientId, negotiates);
              ok == r.Ok? && View() == if ok then r.value else r.error
    {
      clientId := newClientId;
      if !transport {
        return false;
      }
      ok := true;
      if !negotiates {
        DropConnection();
        return;
      }
      internalBatch := false;
      Flush();
      CallBack(id);
      ok := FollowAdvice();
    }

    method FollowAdvice() returns (ok: bool)
      modifies this
      ensures var r := Proceed(old(View()));
              ok == r.Ok? && View() == if ok then r.value else r.error
    {
      ok := true;
      var action := if Stopped() then NoReconnect else advice.reconnect;
      match action
      case Retry =>
        backoff := 0;
        ScheduleConnect();
      case NoReconnect => DropConnection();
      case _ => ok := false;
    }

    method HandshakeFailure(id: nat, negotiates: bool) returns (ok: bool)
      modifies this
      ensures var r := HandshakeFailed(config, old(View()), id, negotiates);
              ok == r.Ok? && View() == if ok then r.value else r.error
    {
      if !transport {
        return false;
      }
      if !negotiates {
        DropConnection();
        HandshakeUnsuccessful(id);
      } else {
        HandshakeUnsuccessful(id);
        transport := true;
      }
      return true;
    }

    method ConnectUnsuccessful() returns (ok: bool)
      modifies this
      ensures var r := FailConnect(config, old(View()));
              ok == r.Ok? && View() == if ok then r.value else r.error
    {
      ok := true;
      var action := if Stopped() then NoReconnect else advice.reconnect;
      match action
      case Retry =>
        ScheduleConnect();
        GrowBackoff();
      case Rehandshake =>
        backoff := 0;
        ScheduleHandshake();
      case NoReconnect => DropConnection();
      case Unrecognized => ok := false;
    }

    method ConnectReplied(successful: bool) returns (ok: bool)
      modifies this
      ensures var r := ConnectResponse(config, old(View()), successful);
              ok == r.Ok? && View() == if ok then r.value else r.error
    {
      connected := successful;
      if connected {
        ok := FollowAdvice();
      } else {
        ok := ConnectUnsuccessful();
      }
    }

    method DisconnectReplied(id: nat)
      modifies this
      ensures View() == DisconnectReported(old(View()), id)
    {
      DropConnection();
      CallBack(id);
    }

    method MessageReported(message: Message, verdict: Verdict)
      modifies this`calls
      ensures View() == ApplicationReported(old(View()), message, verdict)
    {
      match verdict
      case Data => calls := Callbacks.HandleRemoteCall(calls, message.id);
      case Accepted => calls := Callbacks.HandleCallback(calls, message.id);
      case Refused =>
        if message.kind.Subscribe? || message.kind.Unsubscribe? {
          calls := Callbacks.HandleCallback(calls, message.id);
        } else {
          calls := Callbacks.FailMessage(calls, message.id);
        }
    }

    /** One event of any kind. */
    method Handle(e: Event) returns (ok: bool)
      requires Enabled(View(), e)
      modifies this
      ensures ok == Step(config, old(View()), e).Ok? && View() == After(config, old(View()), e)
    {
      ok := true;
      match e
      case AppHandshake(hasCallback, negotiates) => ok := HandshakeSession(hasCallback, negotiates);
      case AppDisconnect(hasCallback) => DisconnectSession(hasCallback);
      case AppSubmit(kind, hasCallback) => var _ := SubmitMessage(kind, hasCallback);
      case AppRemoteCall(notifies, timed) => var _ := MakeRemoteCall(notifies, timed);
      case AppStartBatch => OpenBatch();
      case AppEndBatch => CloseBatch();
      case TimerFires(negotiates) => ok := RunScheduled(negotiates);
      case RemoteCallTimer(id) => calls := Callbacks.TimeOut(calls, id);
      case _ => ok := Receive(e);
    }

    /** The reports of the transport: replies and failures of messages in flight. */
    method Receive(e: Event) returns (ok: bool)
      requires Reports(e) && Enabled(View(), e)
      modifies this
      ensures ok == Step(config, old(View()), e).Ok? && View() == After(config, old(View()), e)
    {
      ok := true;
      match e
      case HandshakeReply(_, _, _, _, _) => ok := ReceiveHandshake(e);
      case HandshakeLost(m, negotiates) =>
        Land(m);
        ok := HandshakeFailure(m.id, negotiates);
      case ConnectReply(_, _, _) => ok := ReceiveConnect(e);
      case ConnectLost(_) => ok := ReceiveConnect(e);
      case DisconnectReply(m, newAdvice) =>
        Land(m);
        AdoptAdvice(newAdvice);
        DisconnectReplied(m.id);
      case ApplicationReply(m, verdict, newAdvice) =>
        Land(m);
        AdoptAdvice(newAdvice);
        MessageReported(m, verdict);
      case Unanswered(m) => Land(m);
    }

    method ReceiveHandshake(e: Event) returns (ok: bool)
      requires e.HandshakeReply? && Enabled(View(), e)
      modifies this
      ensures ok == Step(config, old(View()), e).Ok? && View() == After(config, old(View()), e)
    {
      Land(e.m);
      AdoptAdvice(e.newAdvice);
      if e.successful {
        ok := HandshakeSuccessful(e.m.id, Some(e.clientId), e.negotiates);
      } else {
        ok := true;
        HandshakeUnsuccessful(e.m.id);
      }
    }

    method ReceiveConnect(e: Event) returns (ok: bool)
      requires (e.ConnectReply? || e.ConnectLost?) && Enabled(View(), e)
      modifies this
      ensures ok == Step(config, old(View()), e).Ok? && View() == After(config, old(View()), e)
    {
      Land(e.m);
      if e.ConnectReply? {
        AdoptAdvice(e.newAdvice);
        ok := ConnectReplied(e.successful);
      } else {
        connected := false;
        ok := ConnectUnsuccessful();
      }
    }

    ghost method Land(m: Message)
      modifies this`inFlight
      ensures View() == Landed(old(View()), m)
    {
      inFlight := inFlight - {m};
    }
  }
}
