/** The order in which application messages leave the client, and what a disconnection does to those waiting. */
module SessionOrder {
  import opened Wrappers
  import opened BayeuxSession
  import opened SessionSafety
  import Callbacks

  /** The submitted ids that no disconnection has failed. */
  function Kept(ids: seq<nat>, failed: set<nat>): seq<nat> {
    if ids == [] then []
    else if ids[0] in failed then Kept(ids[1..], failed)
    else [ids[0]] + Kept(ids[1..], failed)
  }

  /** The ids that the outgoing extensions let through. */
  function Passed(c: Config, ids: seq<nat>): seq<nat> {
    if ids == [] then []
    else if c.passes(ids[0]) then [ids[0]] + Passed(c, ids[1..])
    else Passed(c, ids[1..])
  }

  ghost predicate Increasing(ids: seq<nat>) {
    forall i, j | 0 <= i < j < |ids| :: ids[i] < ids[j]
  }

  /** What was sent, followed by the queue, is what was submitted and not failed, in submission order;
      and what reached the transport is what was sent, but for what extensions dropped. */
  ghost predicate Ordered(c: Config, s: State) {
    && Kept(s.submitted, s.failed) == s.sent + Ids(s.queue)
    && Ids(s.delivered) == Passed(c, s.sent)
    && Increasing(s.submitted)
    && (forall id | id in s.submitted :: id <= s.calls.messageId)
    && (forall id | id in s.failed :: id <= s.calls.messageId)
  }

  // ------------------------------------------------------------------------- small facts

  lemma {:induction false} KeptAppend(a: seq<nat>, b: seq<nat>, failed: set<nat>)
    ensures Kept(a + b, failed) == Kept(a, failed) + Kept(b, failed)
  {
    if a == [] {
      assert a + b == b;
    } else {
      KeptAppend(a[1..], b, failed);
      assert (a + b)[0] == a[0] && (a + b)[1..] == a[1..] + b;
      assert [a[0]] + (Kept(a[1..], failed) + Kept(b, failed)) == [a[0]] + Kept(a[1..], failed) + Kept(b, failed);
    }
  }

  lemma {:induction false} KeptTwice(ids: seq<nat>, f: set<nat>, g: set<nat>)
    ensures Kept(ids, f + g) == Kept(Kept(ids, f), g)
  {
    if ids != [] {
      KeptTwice(ids[1..], f, g);
      if ids[0] !in f {
        assert ([ids[0]] + Kept(ids[1..], f))[1..] == Kept(ids[1..], f);
      }
    }
  }

  lemma {:induction false} KeptElems(ids: seq<nat>, failed: set<nat>)
    ensures forall id :: id in Kept(ids, failed) <==> id in ids && id !in failed
    ensures (forall id | id in ids :: id !in failed) ==> Kept(ids, failed) == ids
    ensures (forall id | id in ids :: id in failed) ==> Kept(ids, failed) == []
  {
    if ids != [] {
      KeptElems(ids[1..], failed);
    }
  }

  lemma IncreasingCons(ids: seq<nat>, rest: seq<nat>)
    requires Increasing(ids) && ids != [] && Increasing(rest)
    requires forall id | id in rest :: id in ids[1..]
    ensures Increasing([ids[0]] + rest)
  {
    forall k | 0 <= k < |rest| ensures ids[0] < rest[k] {
      assert rest[k] in ids[1..];
    }
  }

  lemma {:induction false} KeptIncreasing(ids: seq<nat>, failed: set<nat>)
    requires Increasing(ids)
    ensures Increasing(Kept(ids, failed))
  {
    if ids != [] {
      KeptIncreasing(ids[1..], failed);
      KeptElems(ids[1..], failed);
      IncreasingCons(ids, Kept(ids[1..], failed));
    }
  }

  lemma IncreasingSnoc(ids: seq<nat>, id: nat)
    requires Increasing(ids) && forall x | x in ids :: x < id
    ensures Increasing(ids + [id])
  {
    forall i, j | 0 <= i < j < |ids + [id]| ensures (ids + [id])[i] < (ids + [id])[j] {
      assert (ids + [id])[i] == ids[i];
      if j < |ids| {
        assert ids[i] < ids[j];
      } else {
        assert ids[i] in ids;
      }
    }
  }

  /** Failing the ids at the end of what was kept keeps exactly those before them. */
  lemma FailTail(ids: seq<nat>, failed: set<nat>, a: seq<nat>, b: seq<nat>)
    requires Increasing(ids) && Kept(ids, failed) == a + b
    ensures Kept(ids, failed + set id | id in b) == a
  {
    var tail := set id | id in b;
    KeptTwice(ids, failed, tail);
    KeptIncreasing(ids, failed);
    KeptAppend(a, b, tail);
    forall i, j | 0 <= i < |a| && 0 <= j < |b| ensures a[i] != b[j] {
      assert (a + b)[i] < (a + b)[|a| + j];
    }
    KeptElems(a, tail);
    KeptElems(b, tail);
  }

  lemma {:induction false} PassedAppend(c: Config, a: seq<nat>, b: seq<nat>)
    ensures Passed(c, a + b) == Passed(c, a) + Passed(c, b)
  {
    if a == [] {
      assert a + b == b;
    } else {
      PassedAppend(c, a[1..], b);
      assert (a + b)[1..] == a[1..] + b;
    }
  }

  lemma IdsCons(m: Message, ms: seq<Message>)
    ensures Ids([m] + ms) == [m.id] + Ids(ms)
  {
  }

  /** What leaves of a list of messages is what of it passes. */
  lemma {:induction false} OutgoingIds(c: Config, clientId: Option<string>, ms: seq<Message>)
    ensures Ids(Applications(Outgoing(c, clientId, ms))) == Passed(c, Ids(Applications(ms)))
  {
    if ms != [] {
      OutgoingIds(c, clientId, ms[1..]);
      var m := ms[0];
      var rest := Outgoing(c, clientId, ms[1..]);
      assert ([Stamp(m, clientId)] + rest)[1..] == rest;
      IdsCons(m, Applications(ms[1..]));
      IdsCons(Stamp(m, clientId), Applications(rest));
      assert ([m.id] + Ids(Applications(ms[1..])))[1..] == Ids(Applications(ms[1..]));
    }
  }

  lemma {:induction false} AllApplications(ms: seq<Message>)
    requires forall m | m in ms :: IsApplication(m.kind)
    ensures Applications(ms) == ms
  {
    if ms != [] {
      AllApplications(ms[1..]);
    }
  }

  lemma {:induction false} ForgetKeepsId(c: Config, t: Callbacks.Table, ms: seq<Message>)
    ensures ForgetDropped(c, t, ms).messageId == t.messageId
    decreases |ms|
  {
    if ms != [] {
      ForgetKeepsId(c, if c.passes(ms[0].id) then t else Callbacks.Forget(t, ms[0].id), ms[1..]);
    }
  }

  lemma {:induction false} FailKeepsId(t: Callbacks.Table, ms: seq<Message>)
    ensures FailQueued(t, ms).messageId == t.messageId
    decreases |ms|
  {
    if ms != [] {
      var t1 := if ms[0].kind.Subscribe? || ms[0].kind.Unsubscribe? then Callbacks.HandleCallback(t, ms[0].id)
                else Callbacks.FailMessage(t, ms[0].id);
      FailKeepsId(t1, ms[1..]);
    }
  }

  // --------------------------------------------------------------------- step by step

  /** The two states agree on everything the order depends on. */
  ghost predicate SameOrder(s: State, t: State) {
    && t.submitted == s.submitted && t.sent == s.sent && t.queue == s.queue && t.failed == s.failed
    && t.delivered == s.delivered && t.calls.messageId >= s.calls.messageId
  }

  lemma OrderKept(c: Config, s: State, t: State)
    requires Ordered(c, s) && SameOrder(s, t)
    ensures Ordered(c, t)
  {
  }

  /** Sending messages of which no application message waits in the queue appends them to the sent ones. */
  lemma SendOrder(c: Config, s: State, ms: seq<Message>)
    ensures var t := Send(c, s, ms);
            && t.sent == s.sent + Ids(Applications(ms))
            && (Ids(s.delivered) == Passed(c, s.sent) ==> Ids(t.delivered) == Passed(c, t.sent))
            && t.queue == s.queue && t.submitted == s.submitted && t.failed == s.failed
            && t.calls.messageId == s.calls.messageId
  {
    var out := Outgoing(c, s.clientId, ms);
    OutgoingIds(c, s.clientId, ms);
    PassedAppend(c, s.sent, Ids(Applications(ms)));
    ForgetKeepsId(c, s.calls, ms);
  }

  lemma SendMetaOrder(c: Config, s: State, m: Message)
    requires Ordered(c, s) && !IsApplication(m.kind)
    ensures Ordered(c, Send(c, s, [m]))
  {
    SendOrder(c, s, [m]);
    assert [m][1..] == [];
    assert Applications([m]) == [];
    assert s.sent + Ids([]) == s.sent;
  }

  lemma FlushOrder(c: Config, s: State)
    requires Ordered(c, s) && QueueOk(s)
    ensures Ordered(c, FlushBatch(c, s))
  {
    if s.queue != [] {
      SendOrder(c, s.(queue := []), s.queue);
      AllApplications(s.queue);
      assert FlushBatch(c, s).sent + Ids([]) == FlushBatch(c, s).sent;
    }
  }

  lemma SubmitOrder(c: Config, s: State, m: Message)
    requires Ordered(c, s) && QueueOk(s) && WaitsForReason(s) && !IsDisconnected(s)
    requires IsApplication(m.kind) && m.id == s.calls.messageId
    requires forall id | id in s.submitted || id in s.failed :: id < m.id
    ensures Ordered(c, SubmitNumbered(c, s, m))
  {
    KeptSnoc(s.submitted, m.id, s.failed);
    IncreasingSnoc(s.submitted, m.id);
    var s1 := s.(submitted := s.submitted + [m.id]);
    if s.batch > 0 || s.internalBatch {
      QueuedOrder(c, s, m);
    } else {
      SendOrder(c, s1, [m]);
      AllApplications([m]);
      assert s.queue == [] && Ids(Applications([m])) == [m.id];
      SentOrder(c, s, s1, Send(c, s1, [m]), m.id);
    }
  }

  lemma KeptSnoc(ids: seq<nat>, id: nat, failed: set<nat>)
    requires id !in failed
    ensures Kept(ids + [id], failed) == Kept(ids, failed) + [id]
  {
    KeptAppend(ids, [id], failed);
    assert [id][1..] == [] && Kept([id], failed) == [id];
  }

  lemma QueuedOrder(c: Config, s: State, m: Message)
    requires Ordered(c, s) && m.id == s.calls.messageId
    requires Kept(s.submitted + [m.id], s.failed) == Kept(s.submitted, s.failed) + [m.id]
    requires Increasing(s.submitted + [m.id])
    ensures Ordered(c, s.(submitted := s.submitted + [m.id], queue := s.queue + [m]))
  {
    assert Ids(s.queue + [m]) == Ids(s.queue) + [m.id];
    assert s.sent + Ids(s.queue) + [m.id] == s.sent + (Ids(s.queue) + [m.id]);
  }

  lemma SentOrder(c: Config, s: State, s1: State, t: State, id: nat)
    requires Ordered(c, s) && s.queue == [] && id == s.calls.messageId
    requires s1 == s.(submitted := s.submitted + [id])
    requires Kept(s1.submitted, s.failed) == Kept(s.submitted, s.failed) + [id] && Increasing(s1.submitted)
    requires t.sent == s.sent + [id] && Ids(t.delivered) == Passed(c, t.sent)
    requires t.queue == [] && t.submitted == s1.submitted && t.failed == s.failed
    requires t.calls.messageId == s.calls.messageId
    ensures Ordered(c, t)
  {
    assert s.sent + Ids([]) == s.sent && t.sent + Ids([]) == t.sent;
  }

  /** A disconnection fails exactly the waiting messages: the last of those submitted and not failed before. */
  lemma DisconnectOrder(c: Config, s: State)
    requires Ordered(c, s)
    ensures Ordered(c, Disconnect(s))
    ensures Kept(s.submitted, s.failed) == Kept(s.submitted, Disconnect(s).failed) + Ids(s.queue)
    ensures Disconnect(s).failed == s.failed + IdSet(s.queue)
  {
    var waiting := set id | id in Ids(s.queue);
    QueueIds(s.queue);
    assert Disconnect(s).failed == s.failed + waiting;
    FailTail(s.submitted, s.failed, s.sent, Ids(s.queue));
    KeptElems(s.submitted, s.failed);
    forall id | id in waiting ensures id <= s.calls.messageId {
      assert id in s.sent + Ids(s.queue);
      assert id in s.submitted;
    }
    FailKeepsId(s.calls, s.queue);
    assert s.sent + Ids([]) == s.sent;
  }

  lemma QueueIds(ms: seq<Message>)
    ensures IdSet(ms) == set id | id in Ids(ms)
  {
    forall m | m in ms ensures m.id in Ids(ms) {
      var k :| 0 <= k < |ms| && ms[k] == m;
      assert Ids(ms)[k] == m.id;
    }
    forall id | id in Ids(ms) ensures exists m :: m in ms && m.id == id {
      var k :| 0 <= k < |ms| && Ids(ms)[k] == id;
      assert ms[k] in ms && ms[k].id == id;
    }
  }

  /** t continues s, or s disconnected. */
  ghost predicate Continues(s: State, t: State) {
    SameOrder(s, t) || SameOrder(Disconnect(s), t)
  }

  lemma ContinuesOrder(c: Config, s: State, t: State)
    requires Ordered(c, s) && Continues(s, t)
    ensures Ordered(c, t)
  {
    DisconnectOrder(c, s);
  }

  lemma FailHandshakeContinues(c: Config, s: State, id: nat)
    ensures Continues(s, FailHandshake(c, s, id))
  {
    var s1 := Acknowledge(s, id);
    if !IsDisconnected(s1) && s1.advice.reconnect != NoReconnect {
      assert SameOrder(s, DelayedHandshake(IncreaseBackoff(c, s1)));
    } else {
      FailKeepsId(s1.calls, s.queue);
      FailKeepsId(s.calls, s.queue);
      assert SameOrder(Disconnect(s), Disconnect(s1));
    }
  }

  lemma FailConnectContinues(c: Config, s: State)
    ensures Continues(s, Left(FailConnect(c, s)))
  {
    if IsDisconnected(s) || s.advice.reconnect.NoReconnect? {
      assert Left(FailConnect(c, s)) == Disconnect(s);
    } else if s.advice.reconnect.Retry? {
      assert SameOrder(s, IncreaseBackoff(c, DelayedConnect(s)));
    } else if s.advice.reconnect.Rehandshake? {
      assert SameOrder(s, DelayedHandshake(s.(backoff := 0)));
    }
  }

  lemma HandshakeFailedContinues(c: Config, s: State, id: nat, negotiates: bool)
    ensures Continues(s, Left(HandshakeFailed(c, s, id, negotiates)))
  {
    FailHandshakeContinues(c, s, id);
    FailHandshakeContinues(c, Disconnect(s), id);
  }

  lemma ConnectResponseContinues(c: Config, s: State, successful: bool)
    ensures Continues(s, Left(ConnectResponse(c, s, successful)))
  {
    FailConnectContinues(c, s.(connected := successful));
  }

  lemma HandshakeOrder(c: Config, s: State, hasCallback: bool, negotiates: bool)
    requires Ordered(c, s)
    ensures Ordered(c, Left(Handshake(c, s, hasCallback, negotiates)))
  {
    var s1 := s.(clientId := None,
                 advice := if IsDisconnected(s) then c.advice else s.advice.(reconnect := Retry),
                 batch := 0, internalBatch := true, handshakeCallback := hasCallback);
    var (s2, m) := Numbered(s1, MetaHandshake, hasCallback);
    OrderKept(c, s, s2);
    OrderKept(c, s, s2.(transport := true, status := Handshaking));
    SendMetaOrder(c, s2.(transport := true, status := Handshaking), m);
  }

  lemma MetaOrder(c: Config, s: State, hasCallback: bool)
    requires Ordered(c, s)
    ensures Ordered(c, Connect(c, s)) && Ordered(c, StopSession(c, s, hasCallback))
  {
    var (s1, m) := Numbered(s, MetaConnect, false);
    OrderKept(c, s, s1.(status := Connecting));
    SendMetaOrder(c, s1.(status := Connecting), m);
    var (s2, n) := Numbered(s, MetaDisconnect, hasCallback);
    OrderKept(c, s, s2.(status := Disconnecting));
    SendMetaOrder(c, s2.(status := Disconnecting), n);
  }

  lemma HandshakeSucceededOrder(c: Config, s: State, id: nat, clientId: Option<string>, negotiates: bool)
    requires Ordered(c, s) && QueueOk(s)
    ensures Ordered(c, Left(HandshakeSucceeded(c, s, id, clientId, negotiates)))
  {
    var s1 := s.(clientId := clientId);
    OrderKept(c, s, s1);
    DisconnectOrder(c, s1);
    FlushOrder(c, s1.(internalBatch := false));
    var s2 := Acknowledge(FlushBatch(c, s1.(internalBatch := false)), id);
    OrderKept(c, FlushBatch(c, s1.(internalBatch := false)), s2);
    DisconnectOrder(c, s2);
  }

  lemma AppSubmitOrder(c: Config, s: State, e: Event)
    requires Ordered(c, s) && QueueOk(s) && WaitsForReason(s) && Enabled(s, e) && e.AppSubmit?
    ensures Ordered(c, After(c, s, e))
  {
    if !IsDisconnected(s) {
      var (s1, m) := Numbered(s, e.kind, e.hasCallback);
      SubmitOrder(c, s1, m);
    }
  }

  lemma AppRemoteCallOrder(c: Config, s: State, e: Event)
    requires Ordered(c, s) && QueueOk(s) && WaitsForReason(s) && Enabled(s, e) && e.AppRemoteCall?
    ensures Ordered(c, After(c, s, e))
  {
    if !IsDisconnected(s) {
      var t := Callbacks.RegisterRemote(s.calls, e.notifies, e.timed);
      SubmitOrder(c, s.(calls := t), Message(t.messageId, RemoteCall, None));
    }
  }

  lemma SubmissionOrder(c: Config, s: State, e: Event)
    requires Ordered(c, s) && QueueOk(s) && WaitsForReason(s) && Enabled(s, e) && Submits(e)
    ensures Ordered(c, After(c, s, e))
  {
    match e
    case AppSubmit(kind, hasCallback) => AppSubmitOrder(c, s, e);
    case AppRemoteCall(_, _) => AppRemoteCallOrder(c, s, e);
    case AppStartBatch =>
    case AppEndBatch => FlushOrder(c, s.(batch := s.batch - 1));
    case RemoteCallTimer(id) =>
  }

  lemma HandshakeReplyOrder(c: Config, s: State, e: Event)
    requires Ordered(c, s) && QueueOk(s) && Enabled(s, e) && e.HandshakeReply?
    ensures Ordered(c, After(c, s, e))
  {
    var s1 := UpdateAdvice(Landed(s, e.m), e.newAdvice);
    OrderKept(c, s, s1);
    if e.successful {
      HandshakeSucceededOrder(c, s1, e.m.id, Some(e.clientId), e.negotiates);
    } else {
      FailHandshakeContinues(c, s1, e.m.id);
      ContinuesOrder(c, s1, FailHandshake(c, s1, e.m.id));
    }
  }

  lemma OperationReportOrder(c: Config, s: State, e: Event)
    requires Ordered(c, s) && QueueOk(s) && Enabled(s, e) && Reports(e) && IsOperation(e.m.kind)
    ensures Ordered(c, After(c, s, e))
  {
    var s0 := Landed(s, e.m);
    OrderKept(c, s, s0);
    match e
    case HandshakeReply(m, successful, clientId, negotiates, newAdvice) => HandshakeReplyOrder(c, s, e);
    case HandshakeLost(m, negotiates) =>
      HandshakeFailedContinues(c, s0, m.id, negotiates);
      ContinuesOrder(c, s0, Left(HandshakeFailed(c, s0, m.id, negotiates)));
    case ConnectReply(m, successful, newAdvice) =>
      var s1 := UpdateAdvice(s0, newAdvice);
      OrderKept(c, s, s1);
      ConnectResponseContinues(c, s1, successful);
      ContinuesOrder(c, s1, Left(ConnectResponse(c, s1, successful)));
    case ConnectLost(m) =>
      var s1 := s0.(connected := false);
      OrderKept(c, s, s1);
      FailConnectContinues(c, s1);
      ContinuesOrder(c, s1, Left(FailConnect(c, s1)));
    case Unanswered(m) =>
  }

  lemma ReportedOrder(c: Config, s: State, m: Message, v: Verdict)
    requires Ordered(c, s)
    ensures Ordered(c, DisconnectReported(s, m.id)) && Ordered(c, ApplicationReported(s, m, v))
  {
    DisconnectOrder(c, s);
    OrderKept(c, Disconnect(s), DisconnectReported(s, m.id));
    OrderKept(c, s, ApplicationReported(s, m, v));
  }

  lemma OtherReportOrder(c: Config, s: State, e: Event)
    requires Ordered(c, s) && Enabled(s, e) && Reports(e) && !IsOperation(e.m.kind)
    ensures Ordered(c, After(c, s, e))
  {
    var s0 := Landed(s, e.m);
    OrderKept(c, s, s0);
    if e.DisconnectReply? {
      OrderKept(c, s, UpdateAdvice(s0, e.newAdvice));
      ReportedOrder(c, UpdateAdvice(s0, e.newAdvice), e.m, Accepted);
    } else if e.ApplicationReply? {
      OrderKept(c, s, UpdateAdvice(s0, e.newAdvice));
      ReportedOrder(c, UpdateAdvice(s0, e.newAdvice), e.m, e.verdict);
    }
  }

  lemma TimerOrder(c: Config, s: State, e: Event)
    requires Ordered(c, s) && Enabled(s, e) && e.TimerFires?
    ensures Ordered(c, After(c, s, e))
  {
    if s.scheduled.value.operation.SendConnect? {
      MetaOrder(c, s.(scheduled := None), false);
    } else {
      HandshakeOrder(c, s.(scheduled := None), s.handshakeCallback, e.negotiates);
    }
  }

  lemma StepOrder(c: Config, s: State, e: Event)
    requires Ordered(c, s) && QueueOk(s) && Ready(s) && Enabled(s, e)
    ensures Ordered(c, After(c, s, e))
  {
    if Reports(e) {
      if IsOperation(e.m.kind) {
        OperationReportOrder(c, s, e);
      } else {
        OtherReportOrder(c, s, e);
      }
    } else if Submits(e) {
      SubmissionOrder(c, s, e);
    } else if e.AppHandshake? {
      HandshakeOrder(c, s.(status := Disconnected), e.hasCallback, e.negotiates);
    } else if e.TimerFires? {
      TimerOrder(c, s, e);
    } else {
      MetaOrder(c, s, e.hasCallback);
    }
  }

  /** In every run, through nested batches, the handshake batch and re-handshakes, application messages leave in the
      order they were submitted, but for those that a disconnection failed while they waited. */
  lemma {:induction false} MessagesLeaveInOrder(c: Config, states: seq<State>, events: seq<Event>, i: nat)
    requires IsRun(c, states, events) && i <= |events|
    ensures Ordered(c, states[i])
  {
    if i > 0 {
      MessagesLeaveInOrder(c, states, events, i - 1);
      OneOperationAtATime(c, states, events, i - 1);
      NothingUnidentifiedIsSent(c, states, events, i - 1);
      assert states[i - 1 + 1] == After(c, states[i - 1], events[i - 1]);
      StepOrder(c, states[i - 1], events[i - 1]);
    }
  }
}
