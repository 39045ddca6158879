/** Starting a session again and ending one: what they need of the client, and runs that show where they go wrong. */
module SessionEndings {
  import opened Wrappers
  import opened BayeuxSession
  import opened SessionSafety
  import opened SessionOrder
  import opened SessionProgress
  import Callbacks

  // ------------------------------------------------------------------------- ids of what is sent

  /** No message that waits or is in flight has an id that is yet to be given. */
  ghost predicate IdsBounded(s: State) {
    && (forall m | m in s.inFlight :: m.id <= s.calls.messageId)
    && (forall m | m in s.queue :: m.id <= s.calls.messageId)
  }

  lemma SendBounded(c: Config, s: State, ms: seq<Message>)
    requires IdsBounded(s) && forall m | m in ms :: m.id <= s.calls.messageId
    ensures IdsBounded(Send(c, s, ms))
  {
    ForgetKeepsId(c, s.calls, ms);
    forall m | m in Outgoing(c, s.clientId, ms) ensures m.id <= s.calls.messageId {
      OutgoingElems(c, s.clientId, ms, m);
    }
  }

  lemma FlushBounded(c: Config, s: State)
    requires IdsBounded(s)
    ensures IdsBounded(FlushBatch(c, s))
  {
    if s.queue != [] {
      SendBounded(c, s.(queue := []), s.queue);
    }
  }

  /** What sends nothing keeps the bound. */
  lemma QuietBounded(s: State, t: State)
    requires IdsBounded(s) && Quiet(s, t) && Continues(s, t)
    ensures IdsBounded(t)
  {
    FailKeepsId(s.calls, s.queue);
  }

  lemma HandshakeBounded(c: Config, s: State, hasCallback: bool, negotiates: bool)
    requires IdsBounded(s)
    ensures IdsBounded(Left(Handshake(c, s, hasCallback, negotiates)))
  {
    var s1 := s.(clientId := None,
                 advice := if IsDisconnected(s) then c.advice else s.advice.(reconnect := Retry),
                 batch := 0, internalBatch := true, handshakeCallback := hasCallback);
    var (s2, m) := Numbered(s1, MetaHandshake, hasCallback);
    SendBounded(c, s2.(transport := true, status := Handshaking), [m]);
  }

  lemma MetaBounded(c: Config, s: State, hasCallback: bool)
    requires IdsBounded(s)
    ensures IdsBounded(Connect(c, s)) && IdsBounded(StopSession(c, s, hasCallback))
  {
    var (s1, m) := Numbered(s, MetaConnect, false);
    SendBounded(c, s1.(status := Connecting), [m]);
    var (s2, n) := Numbered(s, MetaDisconnect, hasCallback);
    SendBounded(c, s2.(status := Disconnecting), [n]);
  }

  lemma SucceededBounded(c: Config, s: State, id: nat, clientId: Option<string>, negotiates: bool)
    requires IdsBounded(s)
    ensures IdsBounded(Left(HandshakeSucceeded(c, s, id, clientId, negotiates)))
  {
    if s.transport && negotiates {
      var s1 := s.(clientId := clientId, internalBatch := false);
      FlushBounded(c, s1);
      ProceedBounded(Acknowledge(FlushBatch(c, s1), id));
    } else {
      FailKeepsId(s.calls, s.queue);
    }
  }

  lemma ProceedBounded(s: State)
    requires IdsBounded(s)
    ensures IdsBounded(Left(Proceed(s)))
  {
    FailKeepsId(s.calls, s.queue);
  }

  lemma SubmitBounded(c: Config, s: State, m: Message)
    requires IdsBounded(s) && m.id <= s.calls.messageId
    ensures IdsBounded(SubmitNumbered(c, s, m))
  {
    SendBounded(c, s.(submitted := s.submitted + [m.id]), [m]);
  }

  lemma SubmissionBounded(c: Config, s: State, e: Event)
    requires IdsBounded(s) && Enabled(s, e) && Submits(e)
    ensures IdsBounded(After(c, s, e))
  {
    match e
    case AppSubmit(kind, hasCallback) =>
      var (s1, m) := Numbered(s, kind, hasCallback);
      SubmitBounded(c, s1, m);
    case AppRemoteCall(notifies, timed) =>
      var t := Callbacks.RegisterRemote(s.calls, notifies, timed);
      SubmitBounded(c, s.(calls := t), Message(t.messageId, RemoteCall, None));
    case AppStartBatch =>
    case AppEndBatch => FlushBounded(c, s.(batch := s.batch - 1));
    case RemoteCallTimer(id) =>
  }

  lemma HandshakeReportBounded(c: Config, s: State, e: Event)
    requires IdsBounded(s) && Enabled(s, e) && (e.HandshakeReply? || e.HandshakeLost?)
    ensures IdsBounded(After(c, s, e))
  {
    var s0 := Landed(s, e.m);
    if e.HandshakeLost? {
      HandshakeFailedIsQuiet(c, s0, e.m.id, e.negotiates);
      HandshakeFailedContinues(c, s0, e.m.id, e.negotiates);
      QuietBounded(s0, Left(HandshakeFailed(c, s0, e.m.id, e.negotiates)));
    } else {
      var s1 := UpdateAdvice(s0, e.newAdvice);
      SucceededBounded(c, s1, e.m.id, Some(e.clientId), e.negotiates);
      FailHandshakeIsQuiet(c, s1, e.m.id);
      FailHandshakeContinues(c, s1, e.m.id);
      QuietBounded(s1, FailHandshake(c, s1, e.m.id));
    }
  }

  lemma ConnectReportBounded(c: Config, s: State, e: Event)
    requires IdsBounded(s) && Enabled(s, e) && (e.ConnectReply? || e.ConnectLost?)
    ensures IdsBounded(After(c, s, e))
  {
    var s0 := Landed(s, e.m);
    if e.ConnectReply? {
      var s1 := UpdateAdvice(s0, e.newAdvice);
      ConnectResponseIsQuiet(c, s1, e.successful);
      ConnectResponseContinues(c, s1, e.successful);
      QuietBounded(s1, Left(ConnectResponse(c, s1, e.successful)));
    } else {
      var s1 := s0.(connected := false);
      FailConnectIsQuiet(c, s1);
      FailConnectContinues(c, s1);
      QuietBounded(s1, Left(FailConnect(c, s1)));
    }
  }

  lemma DisconnectReplyBounded(c: Config, s: State, e: Event)
    requires IdsBounded(s) && Enabled(s, e) && e.DisconnectReply?
    ensures IdsBounded(After(c, s, e))
  {
    FailKeepsId(s.calls, s.queue);
  }

  lemma OtherReportBounded(c: Config, s: State, e: Event)
    requires IdsBounded(s) && Enabled(s, e) && (e.ApplicationReply? || e.Unanswered?)
    ensures IdsBounded(After(c, s, e))
  {
  }

  lemma TimerBounded(c: Config, s: State, e: Event)
    requires IdsBounded(s) && Enabled(s, e) && e.TimerFires?
    ensures IdsBounded(After(c, s, e))
  {
    var s1 := s.(scheduled := None);
    if s.scheduled.value.operation.SendConnect? {
      MetaBounded(c, s1, false);
    } else {
      HandshakeBounded(c, s1, s.handshakeCallback, e.negotiates);
    }
  }

  lemma StepBoundsIds(c: Config, s: State, e: Event)
    requires IdsBounded(s) && Enabled(s, e)
    ensures IdsBounded(After(c, s, e))
  {
    if e.HandshakeReply? || e.HandshakeLost? {
      HandshakeReportBounded(c, s, e);
    } else if e.ConnectReply? || e.ConnectLost? {
      ConnectReportBounded(c, s, e);
    } else if e.DisconnectReply? {
      DisconnectReplyBounded(c, s, e);
    } else if Reports(e) {
      OtherReportBounded(c, s, e);
    } else if Submits(e) {
      SubmissionBounded(c, s, e);
    } else if e.AppHandshake? {
      HandshakeBounded(c, s.(status := Disconnected), e.hasCallback, e.negotiates);
    } else if e.TimerFires? {
      TimerBounded(c, s, e);
    } else {
      MetaBounded(c, s, e.hasCallback);
    }
  }

  lemma {:induction false} RunBoundsIds(c: Config, states: seq<State>, events: seq<Event>, i: nat)
    requires IsRun(c, states, events) && i <= |events|
    ensures IdsBounded(states[i])
  {
    if i > 0 {
      RunBoundsIds(c, states, events, i - 1);
      assert states[i - 1 + 1] == After(c, states[i - 1], events[i - 1]);
      StepBoundsIds(c, states[i - 1], events[i - 1]);
    }
  }

  // ---------------------------------------------------------------------- starting a session again

  lemma RestartFrom(c: Config, s: State, hasCallback: bool, negotiates: bool)
    requires OneOperation(s) && IdsBounded(s) && StartSession(c, s, hasCallback, negotiates).Ok?
    ensures OneOperation(StartSession(c, s, hasCallback, negotiates).value) <==>
              !c.passes(s.calls.messageId + 1) || (s.scheduled.None? && !HasOperation(s.inFlight))
  {
    var s0 := s.(status := Disconnected);
    var s1 := s0.(clientId := None, advice := c.advice, batch := 0, internalBatch := true,
                  handshakeCallback := hasCallback);
    var (s2, m) := Numbered(s1, MetaHandshake, hasCallback);
    var t := Send(c, s2.(transport := true, status := Handshaking), [m]);
    assert t == StartSession(c, s, hasCallback, negotiates).value;
    SendOne(c, s2.(transport := true, status := Handshaking), m);
    if c.passes(m.id) {
      assert m in t.inFlight && IsOperation(m.kind);
      if HasOperation(s.inFlight) {
        var x :| x in s.inFlight && IsOperation(x.kind);
        assert x in t.inFlight && x.id != m.id;
      }
    }
  }

  /** At any point of any run, handshake() keeps one operation at a time if and only if none is scheduled or in flight,
      or an extension drops the handshake. */
  lemma RestartNeedsIdleClient(c: Config, states: seq<State>, events: seq<Event>, i: nat, hasCallback: bool,
                               negotiates: bool)
    requires IsRun(c, states, events) && i <= |events|
    requires StartSession(c, states[i], hasCallback, negotiates).Ok?
    ensures OneOperation(StartSession(c, states[i], hasCallback, negotiates).value) <==>
              || !c.passes(states[i].calls.messageId + 1)
              || (states[i].scheduled.None? && !HasOperation(states[i].inFlight))
  {
    OneOperationAtATime(c, states, events, i);
    RunBoundsIds(c, states, events, i);
    RestartFrom(c, states[i], hasCallback, negotiates);
  }

  // ----------------------------------------------------------------------------- ending a session

  predicate HandshakeArmed(s: State) {
    s.scheduled.Some? && s.scheduled.value.operation.SendHandshake?
  }

  ghost predicate Down(s: State) {
    IsDisconnected(s) && !HandshakeArmed(s)
  }

  lemma SucceededStaysDown(c: Config, s: State, id: nat, clientId: Option<string>, negotiates: bool)
    requires Down(s)
    ensures Down(Left(HandshakeSucceeded(c, s, id, clientId, negotiates)))
  {
    FlushKeepsMode(c, s.(clientId := clientId, internalBatch := false));
  }

  lemma HandshakeReplyStaysDown(c: Config, s: State, e: Event)
    requires Down(s) && Enabled(s, e) && e.HandshakeReply?
    ensures Down(After(c, s, e))
  {
    var s1 := UpdateAdvice(Landed(s, e.m), e.newAdvice);
    if e.successful {
      SucceededStaysDown(c, s1, e.m.id, Some(e.clientId), e.negotiates);
    }
  }

  lemma ConnectReportStaysDown(c: Config, s: State, e: Event)
    requires Down(s) && Enabled(s, e) && (e.ConnectReply? || e.ConnectLost?)
    ensures Down(After(c, s, e))
  {
  }

  lemma OtherReportStaysDown(c: Config, s: State, e: Event)
    requires Down(s) && Enabled(s, e) && (e.DisconnectReply? || e.ApplicationReply? || e.Unanswered?)
    ensures Down(After(c, s, e))
  {
  }

  lemma StepStaysDown(c: Config, s: State, e: Event)
    requires Down(s) && Enabled(s, e) && !e.AppHandshake?
    ensures Down(After(c, s, e))
  {
    if e.HandshakeReply? {
      HandshakeReplyStaysDown(c, s, e);
    } else if e.ConnectReply? || e.ConnectLost? {
      ConnectReportStaysDown(c, s, e);
    } else if e.DisconnectReply? || e.ApplicationReply? || e.Unanswered? {
      OtherReportStaysDown(c, s, e);
    }
  }

  /** What can follow a state until handshake() is called. */
  ghost predicate Follows(c: Config, s: State, states: seq<State>, events: seq<Event>) {
    && |states| == |events| + 1
    && states[0] == s
    && forall i | 0 <= i < |events| ::
         && !events[i].AppHandshake?
         && Enabled(states[i], events[i]) && states[i + 1] == After(c, states[i], events[i])
  }

  lemma {:induction false} FollowsDown(c: Config, s: State, states: seq<State>, events: seq<Event>, i: nat)
    requires Down(s) && Follows(c, s, states, events) && i <= |events|
    ensures Down(states[i])
  {
    if i > 0 {
      FollowsDown(c, s, states, events, i - 1);
      assert states[i - 1 + 1] == After(c, states[i - 1], events[i - 1]);
      StepStaysDown(c, states[i - 1], events[i - 1]);
    }
  }

  lemma ArmedHandshakes(c: Config, s: State) returns (states: seq<State>, events: seq<Event>)
    requires HandshakeArmed(s)
    ensures Follows(c, s, states, events) && !IsDisconnected(states[|events|])
  {
    events := [TimerFires(true)];
    states := [s, After(c, s, events[0])];
  }

  /** In every run, after disconnect() the client stays disconnected until the next handshake(), whatever happens, if
      and only if no retry of a handshake was scheduled: disconnect() does not cancel it, and it starts a session. */
  lemma DisconnectEndsSession(c: Config, states: seq<State>, events: seq<Event>, i: nat)
    requires IsRun(c, states, events) && i < |events| && events[i].AppDisconnect?
    ensures IsDisconnected(states[i + 1])
    ensures (forall ts, es | Follows(c, states[i + 1], ts, es) :: IsDisconnected(ts[|es|]))
       <==> !HandshakeArmed(states[i])
  {
    var s := states[i + 1];
    assert s == After(c, states[i], events[i]);
    if HandshakeArmed(s) {
      var ts, es := ArmedHandshakes(c, s);
      assert Follows(c, s, ts, es) && !IsDisconnected(ts[|es|]);
    } else {
      forall ts, es | Follows(c, s, ts, es) ensures IsDisconnected(ts[|es|]) {
        FollowsDown(c, s, ts, es, |es|);
      }
    }
  }

  /** disconnect() does not cancel a scheduled retry: when its timer fires, the client handshakes again, and ends up
      disconnecting only if the retry was a /meta/connect. */
  lemma DisconnectLeavesRetryArmed(c: Config, s: State, hasCallback: bool)
    requires Grounded(s) && !IsDisconnected(s) && s.scheduled.Some?
    ensures var stopped := StopSession(c, s, hasCallback);
            && Enabled(stopped, TimerFires(true))
            && (IsDisconnected(After(c, stopped, TimerFires(true))) <==> s.scheduled.value.operation.SendConnect?)
  {
  }

  // --------------------------------------------------------------------- runs that get there

  const RETRY := Advice(0, Retry)

  /** The first handshake of a client. */
  const FIRST := Message(1, MetaHandshake, None)

  lemma StartRun(c: Config) returns (states: seq<State>, events: seq<Event>)
    requires c.passes(1)
    ensures IsRun(c, states, events) && |events| == 1 && events[0] == AppHandshake(false, true)
    ensures var s := states[1];
            && s.inFlight == {FIRST} && s.scheduled.None? && s.transport && s.status == Handshaking
            && s.calls.messageId == 1 && s.advice == c.advice && s.queue == []
  {
    var s0 := Init(c);
    events := [AppHandshake(false, true)];
    states := [s0, After(c, s0, events[0])];
    var (s1, m) := Numbered(s0.(internalBatch := true), MetaHandshake, false);
    SendOne(c, s1.(transport := true, status := Handshaking), m);
    ForgetKeepsId(c, s1.calls, [m]);
  }

  lemma Extend(c: Config, states: seq<State>, events: seq<Event>, e: Event) returns (ts: seq<State>, es: seq<Event>)
    requires IsRun(c, states, events) && Enabled(states[|events|], e)
    ensures IsRun(c, ts, es) && es == events + [e] && ts == states + [After(c, states[|events|], e)]
  {
    ts, es := states + [After(c, states[|events|], e)], events + [e];
    forall i | 0 <= i < |es| ensures Enabled(ts[i], es[i]) && ts[i + 1] == After(c, ts[i], es[i]) {
      assert i < |events| ==> states[i + 1] == After(c, states[i], events[i]);
    }
  }

  /** Calling handshake() twice gives the client two operations at once. */
  lemma BusyRestart(c: Config) returns (states: seq<State>, events: seq<Event>)
    requires c.passes(1) && c.passes(2)
    ensures IsRun(c, states, events)
    ensures var r := StartSession(c, states[|events|], false, true); r.Ok? && !OneOperation(r.value)
  {
    states, events := StartRun(c);
    var s := states[1];
    assert FIRST in s.inFlight;
    RestartNeedsIdleClient(c, states, events, 1, false, true);
  }

  /** A handshake fails, the application disconnects, and the retry starts a session all the same. */
  lemma DisconnectedClientHandshakes(c: Config) returns (states: seq<State>, events: seq<Event>)
    requires c.passes(1)
    ensures IsRun(c, states, events) && |events| == 4
    ensures events[2].AppDisconnect? && events[3].TimerFires? && !IsDisconnected(states[4])
  {
    states, events := StartRun(c);
    states, events := Extend(c, states, events, HandshakeReply(FIRST, false, "", true, Some(RETRY)));
    states, events := Extend(c, states, events, AppDisconnect(false));
    states, events := Extend(c, states, events, TimerFires(true));
  }

  /** The first handshake() throws if no transport is accepted. */
  lemma FirstHandshakeCanThrow(c: Config)
    ensures IsRun(c, [Init(c)], []) && Enabled(Init(c), AppHandshake(false, false))
    ensures Step(c, Init(c), AppHandshake(false, false)).Err?
  {
  }

  /** Advice to handshake again on a successful handshake throws. */
  lemma AdviceCanThrow(c: Config) returns (states: seq<State>, events: seq<Event>, e: Event)
    requires c.passes(1)
    ensures IsRun(c, states, events) && Enabled(states[|events|], e) && e.HandshakeReply? && e.successful
    ensures Step(c, states[|events|], e).Err? && ThrowsOnAdvice(states[|events|], e)
  {
    states, events := StartRun(c);
    e := HandshakeReply(FIRST, true, "client", true, Some(Advice(0, Rehandshake)));
    StepThrowsExactlyWhen(c, states[1], e);
  }

  lemma StopKeepsInFlight(c: Config, s: State, m: Message)
    requires m in s.inFlight
    ensures m in StopSession(c, s, false).inFlight && IsDisconnected(StopSession(c, s, false))
  {
  }

  lemma DisconnectReplyKeeps(c: Config, s: State, m: Message)
    requires m in s.inFlight && m.kind.MetaHandshake?
    ensures var e := DisconnectReply(Message(2, MetaDisconnect, None), None);
            && Enabled(s, e) && m in After(c, s, e).inFlight
            && IsDisconnected(After(c, s, e)) && !After(c, s, e).transport
  {
  }

  /** A handshake reply that comes after the disconnection throws, because the transport is gone. */
  lemma LateHandshakeReplyThrows(c: Config) returns (states: seq<State>, events: seq<Event>, e: Event)
    requires c.passes(1) && c.passes(2)
    ensures IsRun(c, states, events) && Enabled(states[|events|], e) && e.HandshakeReply? && e.successful
    ensures Step(c, states[|events|], e).Err? && IsDisconnected(states[|events|])
  {
    states, events := StartRun(c);
    states, events := Extend(c, states, events, AppDisconnect(false));
    StopKeepsInFlight(c, states[1], FIRST);
    DisconnectReplyKeeps(c, states[2], FIRST);
    states, events := Extend(c, states, events, DisconnectReply(Message(2, MetaDisconnect, None), None));
    e := HandshakeReply(FIRST, true, "client", true, None);
  }
}
