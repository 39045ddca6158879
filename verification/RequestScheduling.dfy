/** The transport for request based connections as a state machine: one reserved long poll, a bounded number of
    ordinary requests, an overflow queue, timeouts, and a drain that fails the queue after a failure. */
module RequestScheduling {
  import opened Wrappers
  import opened Utils

  datatype Message = Message(id: nat)

  datatype Envelope = Envelope(url: string, sync: bool, messages: seq<Message>)

  datatype Request = Request(id: nat, metaConnect: bool, envelope: Envelope)

  datatype Config = Config(maxConnections: nat, autoBatch: bool)

  datatype Kind = Replied | EmptyReply | Failed | TimedOut | PreviousFailed

  /** One call of onSuccess or onFailure. */
  datatype Report = Report(request: Request, kind: Kind)

  /** `timers` and `drains` are the pending timeouts; `wire` holds the requests handed to transportSend that the
      network has not reported yet. The last four fields record the history. */
  datatype State = State(
    requestIds: nat,
    metaConnectRequest: Option<Request>,
    requests: seq<Request>,
    envelopes: seq<Request>,
    expired: set<nat>,
    timers: set<Request>,
    drains: seq<Request>,
    wire: set<Request>,
    submitted: seq<Message>,
    transmitted: seq<Message>,
    metaSubmitted: seq<Message>,
    reports: seq<Report>)

  const INIT := State(0, None, [], [], {}, {}, [], {}, [], [], [], [])

  // ----------------------------------------------------------------------------- operations

  predicate Coalescible(a: Envelope, b: Envelope) {
    a.url == b.url && a.sync == b.sync
  }

  function Coalesce(e: Envelope, queue: seq<Request>): (r: (Envelope, seq<Request>))
    ensures |r.1| <= |queue|
    decreases |queue|
  {
    if queue != [] && Coalescible(queue[0].envelope, e) then
      Coalesce(e.(messages := e.messages + queue[0].envelope.messages), queue[1..])
    else (e, queue)
  }

  function TransportSend(s: State, r: Request): State {
    s.(wire := s.wire + {r},
       expired := s.expired - {r.id},
       timers := if r.envelope.sync then s.timers else s.timers + {r},
       transmitted := if r.metaConnect then s.transmitted else s.transmitted + r.envelope.messages)
  }

  function QueueSend(c: Config, s: State, e: Envelope): State {
    var r := Request(s.requestIds + 1, false, e);
    var s1 := s.(requestIds := r.id);
    if |s.requests| < c.maxConnections - 1 then TransportSend(s1.(requests := s1.requests + [r]), r)
    else s1.(envelopes := s1.envelopes + [r])
  }

  function CompleteOrdinary(c: Config, s: State, r: Request, success: bool): State {
    var s1 := s.(requests := Remove(s.requests, r));
    if s1.envelopes == [] then s1
    else
      var next, rest := s1.envelopes[0], s1.envelopes[1..];
      if success then
        var merged := if c.autoBatch then Coalesce(next.envelope, rest) else (next.envelope, rest);
        QueueSend(c, s1.(envelopes := merged.1), merged.0)
      else s1.(envelopes := rest, drains := s1.drains + [next])
  }

  predicate LongPollMismatch(s: State, r: Request) {
    r.metaConnect && s.metaConnectRequest.Some? && s.metaConnectRequest.value.id != r.id
  }

  function Complete(c: Config, s: State, r: Request, success: bool): Result<State, string> {
    if LongPollMismatch(s, r) then Err("Longpoll request mismatch")
    else Ok(if r.metaConnect then s.(metaConnectRequest := None) else CompleteOrdinary(c, s, r, success))
  }

  function Reporting(s: State, r: Request, kind: Kind): State {
    s.(reports := s.reports + [Report(r, kind)])
  }

  /** transportSuccess and transportFailure: a request that has timed out is ignored. */
  function WireReports(c: Config, s: State, r: Request, kind: Kind): Result<State, string> {
    var s0 := s.(wire := s.wire - {r});
    if r.id in s0.expired then Ok(s0)
    else
      match Complete(c, s0.(timers := s0.timers - {r}), r, kind != Failed)
      case Err(x) => Err(x)
      case Ok(s1) => Ok(Reporting(s1, r, kind))
  }

  function TimerFires(c: Config, s: State, r: Request): Result<State, string> {
    var s0 := s.(expired := s.expired + {r.id}, timers := s.timers - {r});
    match Complete(c, s0, r, false)
    case Err(x) => Err(x)
    case Ok(s1) => Ok(Reporting(s1, r, TimedOut))
  }

  function DrainFires(c: Config, s: State, r: Request): Result<State, string> {
    match Complete(c, s.(drains := Remove(s.drains, r)), r, false)
    case Err(x) => Err(x)
    case Ok(s1) => Ok(Reporting(s1, r, PreviousFailed))
  }

  function Send(c: Config, s: State, e: Envelope): State {
    QueueSend(c, s.(submitted := s.submitted + e.messages), e)
  }

  function MetaConnectSend(s: State, e: Envelope): Result<State, string> {
    if s.metaConnectRequest.Some? then Err("Concurrent metaConnect requests not allowed")
    else
      var r := Request(s.requestIds + 1, true, e);
      Ok(TransportSend(s.(requestIds := r.id, metaSubmitted := s.metaSubmitted + e.messages), r)
         .(metaConnectRequest := Some(r)))
  }

  // ------------------------------------------------------------------------------------ runs

  datatype Event =
    | Submit(envelope: Envelope)
    | SubmitMetaConnect(envelope: Envelope)
    | Wire(request: Request, kind: Kind)
    | Timer(request: Request)
    | Drain(request: Request)

  /** The network reports a request at most once, and only pending timeouts fire. */
  predicate Enabled(s: State, e: Event) {
    match e
    case Submit(_) => true
    case SubmitMetaConnect(_) => true
    case Wire(r, kind) => r in s.wire && (kind.Replied? || kind.EmptyReply? || kind.Failed?)
    case Timer(r) => r in s.timers
    case Drain(r) => r in s.drains
  }

  function Step(c: Config, s: State, e: Event): Result<State, string> {
    match e
    case Submit(env) => Ok(Send(c, s, env))
    case SubmitMetaConnect(env) => MetaConnectSend(s, env)
    case Wire(r, kind) => WireReports(c, s, r, kind)
    case Timer(r) => TimerFires(c, s, r)
    case Drain(r) => DrainFires(c, s, r)
  }

  /** What a throw leaves: the long poll and the slots as they were, the request no longer expected. */
  function Thrown(s: State, e: Event): State {
    match e
    case Submit(_) => s
    case SubmitMetaConnect(_) => s
    case Wire(r, _) => s.(wire := s.wire - {r}, timers := s.timers - {r})
    case Timer(r) => s.(expired := s.expired + {r.id}, timers := s.timers - {r})
    case Drain(r) => s.(drains := Remove(s.drains, r))
  }

  function After(c: Config, s: State, e: Event): State {
    match Step(c, s, e)
    case Ok(s') => s'
    case Err(_) => Thrown(s, e)
  }

  ghost predicate IsRun(c: Config, states: seq<State>, events: seq<Event>) {
    && |states| == |events| + 1
    && states[0] == INIT
    && forall i | 0 <= i < |events| ::
         Enabled(states[i], events[i]) && states[i + 1] == After(c, states[i], events[i])
  }

  // ------------------------------------------------------------------------------ the invariant

  ghost function Times(xs: seq<Message>, m: Message): nat {
    multiset(xs)[m]
  }

  /** How often the message is held by the requests. */
  ghost function Held(rs: seq<Request>, m: Message): nat {
    if rs == [] then 0 else Times(rs[0].envelope.messages, m) + Held(rs[1..], m)
  }

  function Reported(reports: seq<Report>, metaConnect: bool): seq<Message> {
    if reports == [] then []
    else if reports[0].request.metaConnect == metaConnect then
      reports[0].request.envelope.messages + Reported(reports[1..], metaConnect)
    else Reported(reports[1..], metaConnect)
  }

  ghost function HeldByLongPoll(s: State, m: Message): nat {
    if s.metaConnectRequest.Some? then Times(s.metaConnectRequest.value.envelope.messages, m) else 0
  }

  /** Every accepted message is in exactly one place: in flight, queued, draining or reported. */
  ghost predicate ConservedFor(s: State, m: Message) {
    && Times(s.submitted, m) ==
         Held(s.requests, m) + Held(s.envelopes, m) + Held(s.drains, m) + Times(Reported(s.reports, false), m)
    && Times(s.metaSubmitted, m) == HeldByLongPoll(s, m) + Times(Reported(s.reports, true), m)
  }

  ghost predicate Conserved(s: State) {
    forall m :: ConservedFor(s, m)
  }

  ghost predicate InFlight(s: State, r: Request) {
    r in s.requests || s.metaConnectRequest == Some(r)
  }

  ghost predicate Parked(s: State, r: Request) {
    r in s.envelopes || r in s.drains
  }

  /** What is in flight is what the network may still report and has not timed out. */
  ghost predicate Tracked(s: State) {
    && (forall r | r in s.wire :: r.id <= s.requestIds)
    && (forall id | id in s.expired :: id <= s.requestIds)
    && (forall r :: InFlight(s, r) <==> r in s.wire && r.id !in s.expired)
    && (forall r | r in s.timers :: InFlight(s, r))
    && (forall r :: InFlight(s, r) && !r.envelope.sync ==> r in s.timers)
    && (forall r | r in s.requests :: !r.metaConnect)
    && (forall r | Parked(s, r) :: !r.metaConnect && r.id <= s.requestIds)
    && (forall r, w | Parked(s, r) && w in s.wire :: r.id != w.id)
    && Sorted(s.requests)
    && (s.metaConnectRequest.Some? ==>
          && s.metaConnectRequest.value.metaConnect
          && forall r | r in s.requests :: r.id != s.metaConnectRequest.value.id)
  }

  /** At most maxConnections - 1 ordinary requests, and a queue only behind full slots or a drain. */
  ghost predicate Bounded(c: Config, s: State) {
    && |s.requests| <= c.maxConnections - 1
    && (s.envelopes != [] ==> |s.requests| == c.maxConnections - 1 || s.drains != [])
  }

  ghost predicate Inv(c: Config, s: State) {
    Conserved(s) && Tracked(s) && Bounded(c, s)
  }

  // ------------------------------------------------------------------------- small facts

  lemma {:induction false} HeldSnoc(a: seq<Request>, r: Request, m: Message)
    ensures Held(a + [r], m) == Held(a, m) + Times(r.envelope.messages, m)
  {
    if a == [] {
      assert a + [r] == [r] && [r][1..] == [];
    } else {
      HeldSnoc(a[1..], r, m);
      assert (a + [r])[1..] == a[1..] + [r];
    }
  }

  lemma {:induction false} RemoveHeld(rs: seq<Request>, r: Request, m: Message)
    requires r in rs
    ensures Held(rs, m) == Held(Remove(rs, r), m) + Times(r.envelope.messages, m)
  {
    if rs[0] != r {
      RemoveHeld(rs[1..], r, m);
      assert ([rs[0]] + Remove(rs[1..], r))[1..] == Remove(rs[1..], r);
    }
  }

  ghost predicate Sorted(rs: seq<Request>) {
    forall i, j | 0 <= i < j < |rs| :: rs[i].id < rs[j].id
  }

  lemma {:induction false} RemoveSorted(rs: seq<Request>, r: Request)
    requires Sorted(rs)
    ensures Sorted(Remove(rs, r)) && r !in Remove(rs, r)
    ensures forall x | x in Remove(rs, r) :: r in rs ==> x.id != r.id
  {
    if rs != [] && rs[0] != r {
      var t := Remove(rs[1..], r);
      RemoveSorted(rs[1..], r);
      RemoveOne(rs[1..], r);
      SortedBefore(rs[0], t, rs);
    }
  }

  lemma SortedBefore(x: Request, t: seq<Request>, rs: seq<Request>)
    requires Sorted(rs) && rs != [] && rs[0] == x && Sorted(t)
    requires forall y | y in t :: y in rs[1..]
    ensures Sorted([x] + t)
  {
    forall y | y in t ensures x.id < y.id {
      assert y in rs[1..];
    }
  }

  lemma {:induction false} CoalesceHeld(e: Envelope, queue: seq<Request>, m: Message)
    ensures var r := Coalesce(e, queue);
            Times(r.0.messages, m) + Held(r.1, m) == Times(e.messages, m) + Held(queue, m)
    decreases |queue|
  {
    if queue != [] && Coalescible(queue[0].envelope, e) {
      CoalesceHeld(e.(messages := e.messages + queue[0].envelope.messages), queue[1..], m);
    }
  }

  lemma {:induction false} ReportedSnoc(reports: seq<Report>, r: Report, metaConnect: bool)
    ensures Reported(reports + [r], metaConnect) ==
            Reported(reports, metaConnect)
            + if r.request.metaConnect == metaConnect then r.request.envelope.messages else []
  {
    if reports == [] {
      assert reports + [r] == [r] && [r][1..] == [];
    } else {
      ReportedSnoc(reports[1..], r, metaConnect);
      assert (reports + [r])[1..] == reports[1..] + [r];
    }
  }

  // ------------------------------------------------------------------- conservation, step by step

  /** The operations below leave the history of submissions and reports alone. */
  ghost predicate SameHistory(s: State, t: State) {
    t.reports == s.reports && t.submitted == s.submitted && t.metaSubmitted == s.metaSubmitted
  }

  lemma QueueSendHeld(c: Config, s: State, e: Envelope, m: Message)
    ensures var t := QueueSend(c, s, e);
            && Held(t.requests, m) + Held(t.envelopes, m) ==
                 Held(s.requests, m) + Held(s.envelopes, m) + Times(e.messages, m)
            && t.drains == s.drains && SameHistory(s, t) && t.metaConnectRequest == s.metaConnectRequest
  {
    var r := Request(s.requestIds + 1, false, e);
    if |s.requests| < c.maxConnections - 1 {
      HeldSnoc(s.requests, r, m);
    } else {
      HeldSnoc(s.envelopes, r, m);
    }
  }

  /** Completing an ordinary request moves the rest of the messages around but keeps each of them. */
  lemma CompleteHeld(c: Config, s: State, r: Request, success: bool, m: Message)
    ensures var t := CompleteOrdinary(c, s, r, success);
            && Held(t.requests, m) + Held(t.envelopes, m) + Held(t.drains, m) ==
                 Held(Remove(s.requests, r), m) + Held(s.envelopes, m) + Held(s.drains, m)
            && SameHistory(s, t) && t.metaConnectRequest == s.metaConnectRequest
  {
    var s1 := s.(requests := Remove(s.requests, r));
    if s.envelopes != [] {
      var next, rest := s.envelopes[0], s.envelopes[1..];
      HeldSnoc(s.drains, next, m);
      if success {
        CoalesceHeld(next.envelope, rest, m);
        var merged := if c.autoBatch then Coalesce(next.envelope, rest) else (next.envelope, rest);
        QueueSendHeld(c, s1.(envelopes := merged.1), merged.0, m);
      }
    }
  }

  lemma ReportConserves(s: State, r: Request, kind: Kind, m: Message)
    ensures var t := Reporting(s, r, kind);
            && Times(Reported(t.reports, r.metaConnect), m) ==
                 Times(Reported(s.reports, r.metaConnect), m) + Times(r.envelope.messages, m)
            && Reported(t.reports, !r.metaConnect) == Reported(s.reports, !r.metaConnect)
  {
    ReportedSnoc(s.reports, Report(r, kind), true);
    ReportedSnoc(s.reports, Report(r, kind), false);
  }

  /** A request in flight, or a draining one, leaves its place and is reported. */
  lemma FinishConserves(c: Config, was: State, s: State, r: Request, success: bool, kind: Kind, m: Message)
    requires ConservedFor(was, m) && SameHistory(was, s)
    requires s.envelopes == was.envelopes && s.metaConnectRequest == was.metaConnectRequest
    requires if r.metaConnect then
               s.metaConnectRequest == Some(r) && s.requests == was.requests && s.drains == was.drains
             else Held(Remove(s.requests, r), m) + Held(s.drains, m) + Times(r.envelope.messages, m)
                    == Held(was.requests, m) + Held(was.drains, m)
    ensures Complete(c, s, r, success).Ok?
    ensures ConservedFor(Reporting(Complete(c, s, r, success).value, r, kind), m)
  {
    if r.metaConnect {
      ReportConserves(s.(metaConnectRequest := None), r, kind, m);
    } else {
      var t := CompleteOrdinary(c, s, r, success);
      CompleteHeld(c, s, r, success, m);
      ReportConserves(t, r, kind, m);
      assert Complete(c, s, r, success) == Ok(t) && t.reports == was.reports;
    }
  }

  lemma SendConserves(c: Config, s: State, e: Event, m: Message)
    requires ConservedFor(s, m) && (e.Submit? || e.SubmitMetaConnect?)
    ensures ConservedFor(After(c, s, e), m)
  {
    if e.Submit? {
      QueueSendHeld(c, s.(submitted := s.submitted + e.envelope.messages), e.envelope, m);
    }
  }

  lemma WireConserves(c: Config, s: State, e: Event, m: Message)
    requires ConservedFor(s, m) && Tracked(s) && Enabled(s, e) && e.Wire?
    ensures ConservedFor(After(c, s, e), m)
  {
    var r := e.request;
    if r.id !in s.expired {
      InFlightHeld(s, r, m);
      FinishConserves(c, s, s.(wire := s.wire - {r}, timers := s.timers - {r}), r, e.kind != Failed, e.kind, m);
    }
  }

  lemma TimerConserves(c: Config, s: State, e: Event, m: Message)
    requires ConservedFor(s, m) && Tracked(s) && Enabled(s, e) && e.Timer?
    ensures ConservedFor(After(c, s, e), m)
  {
    var r := e.request;
    InFlightHeld(s, r, m);
    FinishConserves(c, s, s.(expired := s.expired + {r.id}, timers := s.timers - {r}), r, false, TimedOut, m);
  }

  lemma DrainConserves(c: Config, s: State, e: Event, m: Message)
    requires ConservedFor(s, m) && Tracked(s) && Enabled(s, e) && e.Drain?
    ensures ConservedFor(After(c, s, e), m)
  {
    var r := e.request;
    RemoveHeld(s.drains, r, m);
    DrainingIsNotInFlight(s, r);
    FinishConserves(c, s, s.(drains := Remove(s.drains, r)), r, false, PreviousFailed, m);
  }

  lemma StepConserves(c: Config, s: State, e: Event, m: Message)
    requires ConservedFor(s, m) && Tracked(s) && Enabled(s, e)
    ensures ConservedFor(After(c, s, e), m)
  {
    match e
    case Submit(_) => SendConserves(c, s, e, m);
    case SubmitMetaConnect(_) => SendConserves(c, s, e, m);
    case Wire(_, _) => WireConserves(c, s, e, m);
    case Timer(_) => TimerConserves(c, s, e, m);
    case Drain(_) => DrainConserves(c, s, e, m);
  }

  lemma InFlightHeld(s: State, r: Request, m: Message)
    requires Tracked(s) && (r in s.timers || (r in s.wire && r.id !in s.expired))
    ensures if r.metaConnect then s.metaConnectRequest == Some(r)
            else
              && r in s.requests
              && Held(s.requests, m) == Held(Remove(s.requests, r), m) + Times(r.envelope.messages, m)
  {
    assert InFlight(s, r);
    if !r.metaConnect {
      RemoveHeld(s.requests, r, m);
    }
  }

  lemma DrainingIsNotInFlight(s: State, r: Request)
    requires Tracked(s) && r in s.drains
    ensures !r.metaConnect && r !in s.requests && Remove(s.requests, r) == s.requests
  {
    assert Parked(s, r);
    assert InFlight(s, r) ==> r in s.wire;
    RemoveOne(s.requests, r);
  }

  // -------------------------------------------------------------------- tracking, step by step

  lemma TransmitTracked(s: State, e: Envelope)
    requires Tracked(s)
    ensures var r := Request(s.requestIds + 1, false, e);
            Tracked(TransportSend(s.(requestIds := r.id, requests := s.requests + [r]), r))
  {
    var r := Request(s.requestIds + 1, false, e);
    var t := TransportSend(s.(requestIds := r.id, requests := s.requests + [r]), r);
    forall x | x in s.requests ensures x.id <= s.requestIds {
      assert InFlight(s, x);
    }
    forall x ensures InFlight(t, x) <==> InFlight(s, x) || x == r {
    }
    forall x ensures InFlight(t, x) <==> x in t.wire && x.id !in t.expired {
      assert InFlight(s, x) <==> x in s.wire && x.id !in s.expired;
    }
    forall x | Parked(t, x) ensures Parked(s, x) {
    }
    if s.metaConnectRequest.Some? {
      assert InFlight(s, s.metaConnectRequest.value);
    }
  }

  lemma EnqueueTracked(s: State, e: Envelope)
    requires Tracked(s)
    ensures var r := Request(s.requestIds + 1, false, e);
            Tracked(s.(requestIds := r.id, envelopes := s.envelopes + [r]))
  {
    var r := Request(s.requestIds + 1, false, e);
    var t := s.(requestIds := r.id, envelopes := s.envelopes + [r]);
    forall x ensures InFlight(t, x) <==> InFlight(s, x) {
    }
    forall x | Parked(t, x) ensures Parked(s, x) || x == r {
    }
  }

  lemma QueueSendTracked(c: Config, s: State, e: Envelope)
    requires Tracked(s)
    ensures Tracked(QueueSend(c, s, e))
  {
    TransmitTracked(s, e);
    EnqueueTracked(s, e);
  }

  /** `r` has left the wire or has expired: removing it restores the tracking of the others. */
  ghost predicate Leaving(s: State, r: Request) {
    && (forall x | x in s.wire :: x.id <= s.requestIds)
    && (forall id | id in s.expired :: id <= s.requestIds)
    && (forall x :: InFlight(s, x) && x != r <==> x in s.wire && x.id !in s.expired)
    && (forall x | x in s.timers :: InFlight(s, x) && x != r)
    && (forall x :: InFlight(s, x) && x != r && !x.envelope.sync ==> x in s.timers)
    && (forall x | x in s.requests :: !x.metaConnect)
    && (forall x | Parked(s, x) :: !x.metaConnect && x.id <= s.requestIds)
    && (forall x, w | Parked(s, x) && w in s.wire :: x.id != w.id)
    && Sorted(s.requests)
    && (s.metaConnectRequest.Some? ==>
          && s.metaConnectRequest.value.metaConnect
          && forall x | x in s.requests :: x.id != s.metaConnectRequest.value.id)
  }

  lemma RemovalTracked(s: State, r: Request)
    requires Leaving(s, r) && !r.metaConnect
    ensures Tracked(s.(requests := Remove(s.requests, r)))
  {
    RemoveOne(s.requests, r);
    RemoveSorted(s.requests, r);
    var t := s.(requests := Remove(s.requests, r));
    forall x ensures InFlight(t, x) <==> InFlight(s, x) && x != r {
    }
    forall x | Parked(t, x) ensures Parked(s, x) {
    }
  }

  lemma CompleteTracked(c: Config, s: State, r: Request, success: bool)
    requires Leaving(s, r) && (r.metaConnect ==> s.metaConnectRequest == Some(r))
    ensures Complete(c, s, r, success).Ok? && Tracked(Complete(c, s, r, success).value)
  {
    if r.metaConnect {
      var t := s.(metaConnectRequest := None);
      forall x ensures InFlight(t, x) <==> InFlight(s, x) && x != r {
      }
      forall x | Parked(t, x) ensures Parked(s, x) {
      }
    } else {
      var s1 := s.(requests := Remove(s.requests, r));
      RemovalTracked(s, r);
      if s1.envelopes != [] {
        var next, rest := s1.envelopes[0], s1.envelopes[1..];
        if success {
          var merged := if c.autoBatch then Coalesce(next.envelope, rest) else (next.envelope, rest);
          CoalesceSuffix(next.envelope, rest);
          DropQueuedTracked(s1, merged.1);
          QueueSendTracked(c, s1.(envelopes := merged.1), merged.0);
        } else {
          DrainQueuedTracked(s1);
        }
      }
    }
  }

  lemma {:induction false} CoalesceSuffix(e: Envelope, queue: seq<Request>)
    ensures forall x :: x in Coalesce(e, queue).1 ==> x in queue
    decreases |queue|
  {
    if queue != [] && Coalescible(queue[0].envelope, e) {
      CoalesceSuffix(e.(messages := e.messages + queue[0].envelope.messages), queue[1..]);
    }
  }

  lemma DropQueuedTracked(s: State, rest: seq<Request>)
    requires Tracked(s) && forall x | x in rest :: x in s.envelopes
    ensures Tracked(s.(envelopes := rest))
  {
    var t := s.(envelopes := rest);
    forall x ensures InFlight(t, x) <==> InFlight(s, x) {
    }
    forall x | Parked(t, x) ensures Parked(s, x) {
    }
  }

  lemma DrainQueuedTracked(s: State)
    requires Tracked(s) && s.envelopes != []
    ensures Tracked(s.(envelopes := s.envelopes[1..], drains := s.drains + [s.envelopes[0]]))
  {
    var t := s.(envelopes := s.envelopes[1..], drains := s.drains + [s.envelopes[0]]);
    forall x ensures InFlight(t, x) <==> InFlight(s, x) {
    }
    forall x | Parked(t, x) ensures Parked(s, x) {
    }
  }

  lemma UnrelatedTracked(s: State, t: State)
    requires Tracked(s)
    requires t == s.(submitted := t.submitted, metaSubmitted := t.metaSubmitted, reports := t.reports)
    ensures Tracked(t)
  {
    forall x ensures InFlight(t, x) <==> InFlight(s, x) {
    }
    forall x | Parked(t, x) ensures Parked(s, x) {
    }
  }

  lemma LeavingByReport(s: State, r: Request)
    requires Tracked(s) && r in s.wire && r.id !in s.expired
    ensures Leaving(s.(wire := s.wire - {r}, timers := s.timers - {r}), r)
  {
    var t := s.(wire := s.wire - {r}, timers := s.timers - {r});
    forall x ensures InFlight(t, x) <==> InFlight(s, x) {
    }
    forall x | Parked(t, x) ensures Parked(s, x) {
    }
  }

  lemma SortedDistinct(rs: seq<Request>, a: Request, b: Request)
    requires Sorted(rs) && a in rs && b in rs && a != b
    ensures a.id != b.id
  {
  }

  lemma LeavingByTimeout(s: State, r: Request)
    requires Tracked(s) && r in s.timers
    ensures Leaving(s.(expired := s.expired + {r.id}, timers := s.timers - {r}), r)
  {
    var t := s.(expired := s.expired + {r.id}, timers := s.timers - {r});
    assert InFlight(s, r);
    forall x ensures InFlight(t, x) && x != r <==> x in t.wire && x.id !in t.expired {
      assert InFlight(t, x) <==> InFlight(s, x);
      if InFlight(s, x) && x != r && x in s.requests && r in s.requests {
        SortedDistinct(s.requests, x, r);
      }
    }
    forall x | Parked(t, x) ensures Parked(s, x) {
    }
  }

  lemma LeavingByDrain(s: State, r: Request)
    requires Tracked(s) && r in s.drains
    ensures Leaving(s.(drains := Remove(s.drains, r)), r)
  {
    var t := s.(drains := Remove(s.drains, r));
    RemoveOne(s.drains, r);
    assert Parked(s, r);
    forall x ensures InFlight(t, x) && x != r <==> x in t.wire && x.id !in t.expired {
      assert InFlight(t, x) <==> InFlight(s, x);
    }
    forall x | Parked(t, x) ensures Parked(s, x) {
    }
  }

  lemma MetaConnectTracked(s: State, e: Envelope)
    requires Tracked(s) && s.metaConnectRequest.None?
    ensures Tracked(MetaConnectSend(s, e).value)
  {
    var t := MetaConnectSend(s, e).value;
    var r := t.metaConnectRequest.value;
    forall x ensures InFlight(t, x) <==> x in t.wire && x.id !in t.expired {
      assert InFlight(s, x) <==> x in s.wire && x.id !in s.expired;
      assert InFlight(t, x) <==> InFlight(s, x) || x == r;
    }
    forall x | x in t.requests ensures x.id != r.id {
      assert InFlight(s, x);
    }
    forall x | Parked(t, x) ensures Parked(s, x) {
    }
  }

  /** Only a second long poll throws, and every other step keeps the tracking. */
  lemma StepTracked(c: Config, s: State, e: Event)
    requires Tracked(s) && Enabled(s, e)
    ensures Tracked(After(c, s, e))
    ensures Step(c, s, e).Err? <==> e.SubmitMetaConnect? && s.metaConnectRequest.Some?
  {
    match e
    case Submit(env) =>
      UnrelatedTracked(s, s.(submitted := s.submitted + env.messages));
      QueueSendTracked(c, s.(submitted := s.submitted + env.messages), env);
    case SubmitMetaConnect(env) =>
      if s.metaConnectRequest.None? {
        MetaConnectTracked(s, env);
      }
    case Wire(r, kind) =>
      if r.id in s.expired {
        ForgetExpired(s, r);
      } else {
        LeavingByReport(s, r);
        assert InFlight(s, r);
        CompleteTracked(c, s.(wire := s.wire - {r}, timers := s.timers - {r}), r, kind != Failed);
        UnrelatedTracked(Complete(c, s.(wire := s.wire - {r}, timers := s.timers - {r}), r, kind != Failed).value,
                         After(c, s, e));
      }
    case Timer(r) =>
      var s0 := s.(expired := s.expired + {r.id}, timers := s.timers - {r});
      LeavingByTimeout(s, r);
      assert InFlight(s, r);
      CompleteTracked(c, s0, r, false);
      UnrelatedTracked(Complete(c, s0, r, false).value, After(c, s, e));
    case Drain(r) =>
      var s0 := s.(drains := Remove(s.drains, r));
      LeavingByDrain(s, r);
      assert Parked(s, r);
      CompleteTracked(c, s0, r, false);
      UnrelatedTracked(Complete(c, s0, r, false).value, After(c, s, e));
  }

  lemma ForgetExpired(s: State, r: Request)
    requires Tracked(s) && r in s.wire && r.id in s.expired
    ensures Tracked(s.(wire := s.wire - {r}))
  {
    var t := s.(wire := s.wire - {r});
    forall x ensures InFlight(t, x) <==> x in t.wire && x.id !in t.expired {
      assert InFlight(t, x) <==> InFlight(s, x);
    }
    forall x | Parked(t, x) ensures Parked(s, x) {
    }
  }

  // -------------------------------------------------------------------- the bound, step by step

  function Load(s: State): nat {
    |s.requests| + |s.envelopes| + |s.drains|
  }

  /** Completing an ordinary request, or a draining one, keeps the bound. */
  lemma CompleteBounded(c: Config, s: State, r: Request, success: bool)
    requires c.maxConnections >= 2 && |s.requests| <= c.maxConnections - 1
    requires success ==> r in s.requests && Bounded(c, s)
    ensures var t := CompleteOrdinary(c, s, r, success);
            && Bounded(c, t)
            && Load(t) <= Load(s) - (if r in s.requests then 1 else 0)
  {
    RemoveOne(s.requests, r);
  }

  lemma StepBounded(c: Config, s: State, e: Event)
    requires c.maxConnections >= 2 && Tracked(s) && Bounded(c, s) && Enabled(s, e)
    ensures Bounded(c, After(c, s, e))
  {
    match e
    case Submit(env) =>
    case SubmitMetaConnect(env) =>
    case Wire(r, kind) =>
      if r.id !in s.expired {
        assert InFlight(s, r);
        if !r.metaConnect {
          CompleteBounded(c, s.(wire := s.wire - {r}, timers := s.timers - {r}), r, kind != Failed);
        }
      }
    case Timer(r) =>
      assert InFlight(s, r);
      if !r.metaConnect {
        CompleteBounded(c, s.(expired := s.expired + {r.id}, timers := s.timers - {r}), r, false);
      }
    case Drain(r) =>
      assert Parked(s, r);
      CompleteBounded(c, s.(drains := Remove(s.drains, r)), r, false);
  }

  // ------------------------------------------------------------------------------ main results

  lemma StepKeepsInv(c: Config, s: State, e: Event)
    requires c.maxConnections >= 2 && Inv(c, s) && Enabled(s, e)
    ensures Inv(c, After(c, s, e))
  {
    StepTracked(c, s, e);
    StepBounded(c, s, e);
    forall m ensures ConservedFor(After(c, s, e), m) {
      StepConserves(c, s, e, m);
    }
  }

  /** The invariant holds at every point of every run. */
  lemma {:induction false} RunKeepsInv(c: Config, states: seq<State>, events: seq<Event>, i: nat)
    requires c.maxConnections >= 2 && IsRun(c, states, events) && i <= |events|
    ensures Inv(c, states[i])
  {
    if i > 0 {
      RunKeepsInv(c, states, events, i - 1);
      assert states[i - 1 + 1] == After(c, states[i - 1], events[i - 1]);
      StepKeepsInv(c, states[i - 1], events[i - 1]);
    }
  }

  /** In every run, a message sent once is in exactly one place, and is never reported twice,
      whatever timeouts race late replies. */
  lemma EachMessageInOnePlace(c: Config, states: seq<State>, events: seq<Event>, i: nat, m: Message)
    requires c.maxConnections >= 2 && IsRun(c, states, events) && i <= |events|
    requires Times(states[i].submitted, m) == 1
    ensures var s := states[i];
            var flying, queued, draining, told :=
              Held(s.requests, m), Held(s.envelopes, m), Held(s.drains, m), Times(Reported(s.reports, false), m);
            flying + queued + draining + told == 1
  {
    RunKeepsInv(c, states, events, i);
    assert ConservedFor(states[i], m);
  }

  /** The throws: none but that for a second long poll while one is in flight. */
  lemma OnlyConcurrentLongPollThrows(c: Config, states: seq<State>, events: seq<Event>, i: nat)
    requires c.maxConnections >= 2 && IsRun(c, states, events) && i < |events|
    ensures Step(c, states[i], events[i]).Err? <==>
              events[i].SubmitMetaConnect? && states[i].metaConnectRequest.Some?
  {
    RunKeepsInv(c, states, events, i);
    StepTracked(c, states[i], events[i]);
  }

  /** A long poll is refused only while a message of an earlier one is still unreported. */
  lemma RefusedLongPollHasUnreported(c: Config, s: State, e: Envelope) returns (m: Message)
    requires Inv(c, s) && MetaConnectSend(s, e).Err?
    requires s.metaConnectRequest.value.envelope.messages != []
    ensures Times(Reported(s.reports, true), m) < Times(s.metaSubmitted, m)
  {
    m := s.metaConnectRequest.value.envelope.messages[0];
    assert ConservedFor(s, m);
    assert m in multiset(s.metaConnectRequest.value.envelope.messages);
  }

  /** The steps that finish an ordinary request or a draining one. */
  predicate Finishing(s: State, e: Event) {
    match e
    case Submit(_) => false
    case SubmitMetaConnect(_) => false
    case Wire(r, _) => !r.metaConnect && r.id !in s.expired
    case Timer(r) => !r.metaConnect
    case Drain(_) => true
  }

  /** Every finishing step leaves strictly fewer requests, queued envelopes and drains. */
  lemma FinishingDropsLoad(c: Config, s: State, e: Event)
    requires c.maxConnections >= 2 && Inv(c, s) && Enabled(s, e) && Finishing(s, e)
    ensures Load(After(c, s, e)) < Load(s)
  {
    match e
    case Wire(r, kind) =>
      assert InFlight(s, r);
      RemoveOne(s.requests, r);
      CompleteBounded(c, s.(wire := s.wire - {r}, timers := s.timers - {r}), r, kind != Failed);
    case Timer(r) =>
      assert InFlight(s, r);
      CompleteBounded(c, s.(expired := s.expired + {r.id}, timers := s.timers - {r}), r, false);
    case Drain(r) =>
      assert Parked(s, r);
      RemoveOne(s.drains, r);
      CompleteBounded(c, s.(drains := Remove(s.drains, r)), r, false);
  }

  /** Nothing is stranded: while anything is unreported, some finishing step can happen. */
  lemma SomeStepFinishes(c: Config, s: State)
    requires c.maxConnections >= 2 && Inv(c, s) && Load(s) > 0
    ensures exists e :: Enabled(s, e) && Finishing(s, e)
  {
    if s.drains != [] {
      var e := Drain(s.drains[0]);
      assert Enabled(s, e) && Finishing(s, e);
    } else {
      assert s.requests != [];
      var e := Wire(s.requests[0], Replied);
      assert InFlight(s, s.requests[0]);
      assert Enabled(s, e) && Finishing(s, e);
    }
  }

  /** When the load is gone, every ordinary message has been reported. */
  lemma IdleMeansReported(c: Config, s: State, m: Message)
    requires Inv(c, s) && Load(s) == 0
    ensures Times(s.submitted, m) == Times(Reported(s.reports, false), m)
  {
    assert ConservedFor(s, m);
  }

  /** From any reachable state finitely many finishing steps report everything. */
  lemma {:induction false} EverythingCanBeReported(c: Config, s: State) returns (events: seq<Event>, t: State)
    requires c.maxConnections >= 2 && Inv(c, s)
    ensures |events| <= Load(s) && t == AfterAll(c, s, events)
    ensures AllEnabled(c, s, events)
    ensures forall m :: Times(s.submitted, m) == Times(Reported(t.reports, false), m)
    decreases Load(s)
  {
    if Load(s) == 0 {
      events, t := [], s;
      forall m ensures Times(s.submitted, m) == Times(Reported(t.reports, false), m) {
        IdleMeansReported(c, s, m);
      }
    } else {
      SomeStepFinishes(c, s);
      var e :| Enabled(s, e) && Finishing(s, e);
      FinishingDropsLoad(c, s, e);
      StepKeepsInv(c, s, e);
      SubmissionsFixed(c, s, e);
      var rest;
      rest, t := EverythingCanBeReported(c, After(c, s, e));
      events := [e] + rest;
      assert events[1..] == rest;
    }
  }

  lemma SubmissionsFixed(c: Config, s: State, e: Event)
    requires Finishing(s, e)
    ensures After(c, s, e).submitted == s.submitted
  {
  }

  function AfterAll(c: Config, s: State, events: seq<Event>): State
    decreases |events|
  {
    if events == [] then s else AfterAll(c, After(c, s, events[0]), events[1..])
  }

  predicate AllEnabled(c: Config, s: State, events: seq<Event>)
    decreases |events|
  {
    events == [] || (Enabled(s, events[0]) && AllEnabled(c, After(c, s, events[0]), events[1..]))
  }

  // ----------------------------------------------------------------------------------- order

  function Queued(rs: seq<Request>): seq<Message> {
    if rs == [] then [] else rs[0].envelope.messages + Queued(rs[1..])
  }

  lemma {:induction false} QueuedSnoc(rs: seq<Request>, r: Request)
    ensures Queued(rs + [r]) == Queued(rs) + r.envelope.messages
  {
    if rs == [] {
      assert rs + [r] == [r] && [r][1..] == [];
    } else {
      QueuedSnoc(rs[1..], r);
      assert (rs + [r])[1..] == rs[1..] + [r];
    }
  }

  /** Coalescing takes the longest prefix of the queue with the envelope's url and sync, in order. */
  lemma {:induction false} CoalesceTakesLongestPrefix(e: Envelope, queue: seq<Request>) returns (k: nat)
    ensures k <= |queue|
    ensures forall i | 0 <= i < k :: Coalescible(queue[i].envelope, e)
    ensures k < |queue| ==> !Coalescible(queue[k].envelope, e)
    ensures Coalesce(e, queue) == (e.(messages := e.messages + Queued(queue[..k])), queue[k..])
    decreases |queue|
  {
    if queue != [] && Coalescible(queue[0].envelope, e) {
      var k' := CoalesceTakesLongestPrefix(e.(messages := e.messages + queue[0].envelope.messages), queue[1..]);
      k := k' + 1;
      assert e.messages + queue[0].envelope.messages + Queued(queue[1..][..k'])
          == e.messages + (queue[0].envelope.messages + Queued(queue[1..][..k']));
      assert queue[..k][1..] == queue[1..][..k'];
      assert queue[k..] == queue[1..][k'..];
      forall i | 0 <= i < k ensures Coalescible(queue[i].envelope, e) {
        if i > 0 {
          assert queue[i] == queue[1..][i - 1];
        }
      }
    } else {
      k := 0;
      assert e.messages + Queued(queue[..k]) == e.messages;
    }
  }

  lemma {:induction false} QueuedSplit(rs: seq<Request>, k: nat)
    requires k <= |rs|
    ensures Queued(rs) == Queued(rs[..k]) + Queued(rs[k..])
  {
    if k > 0 {
      QueuedSplit(rs[1..], k - 1);
      assert rs[..k][1..] == rs[1..][..k - 1];
      assert rs[k..] == rs[1..][k - 1..];
    }
  }

  /** What has been transmitted, followed by the queue, is what was submitted. */
  ghost predicate Fifo(s: State) {
    s.drains == [] && s.transmitted + Queued(s.envelopes) == s.submitted
  }

  predicate FailureFree(e: Event) {
    e.Submit? || e.SubmitMetaConnect? || (e.Wire? && e.kind != Failed)
  }

  lemma DequeueFifo(c: Config, s: State, r: Request)
    requires c.maxConnections >= 2 && Fifo(s) && Bounded(c, s) && r in s.requests
    ensures Fifo(CompleteOrdinary(c, s, r, true))
  {
    RemoveOne(s.requests, r);
    if s.envelopes != [] {
      var next, rest := s.envelopes[0], s.envelopes[1..];
      var k := CoalesceTakesLongestPrefix(next.envelope, rest);
      QueuedSplit(rest, k);
      var taken := if c.autoBatch then Queued(rest[..k]) else [];
      var left := if c.autoBatch then rest[k..] else rest;
      assert Queued(s.envelopes) == next.envelope.messages + (taken + Queued(left));
      assert s.transmitted + (next.envelope.messages + (taken + Queued(left)))
          == s.transmitted + (next.envelope.messages + taken) + Queued(left);
    }
  }

  lemma StepFifo(c: Config, s: State, e: Event)
    requires c.maxConnections >= 2 && Inv(c, s) && Fifo(s) && Enabled(s, e) && FailureFree(e)
    ensures Fifo(After(c, s, e))
  {
    match e
    case Submit(env) =>
      QueuedSnoc(s.envelopes, Request(s.requestIds + 1, false, env));
    case SubmitMetaConnect(env) =>
    case Wire(r, kind) =>
      if r.id !in s.expired && !r.metaConnect {
        assert InFlight(s, r);
        DequeueFifo(c, s.(wire := s.wire - {r}, timers := s.timers - {r}), r);
      }
  }

  /** In a run without failures, messages are transmitted in submission order. */
  lemma {:induction false} FailureFreeRunsAreFifo(c: Config, states: seq<State>, events: seq<Event>, i: nat)
    requires c.maxConnections >= 2 && IsRun(c, states, events) && i <= |events|
    requires forall j | 0 <= j < i :: FailureFree(events[j])
    ensures Fifo(states[i])
  {
    if i > 0 {
      FailureFreeRunsAreFifo(c, states, events, i - 1);
      RunKeepsInv(c, states, events, i - 1);
      assert states[i - 1 + 1] == After(c, states[i - 1], events[i - 1]);
      StepFifo(c, states[i - 1], events[i - 1]);
    }
  }

  /** With fewer than two connections there is no ordinary slot: whatever is sent stays in the queue for ever. */
  lemma {:induction false} NoSlotStrandsEverything(c: Config, states: seq<State>, events: seq<Event>, i: nat)
    requires c.maxConnections < 2 && IsRun(c, states, events) && i <= |events|
    ensures Tracked(states[i])
    ensures states[i].requests == [] && states[i].drains == [] && states[i].transmitted == []
    ensures Queued(states[i].envelopes) == states[i].submitted
  {
    if i > 0 {
      NoSlotStrandsEverything(c, states, events, i - 1);
      var s, e := states[i - 1], events[i - 1];
      assert states[i - 1 + 1] == After(c, s, e);
      StepTracked(c, s, e);
      match e
      case Submit(env) => QueuedSnoc(s.envelopes, Request(s.requestIds + 1, false, env));
      case SubmitMetaConnect(env) =>
      case Wire(r, kind) => assert r.id !in s.expired ==> InFlight(s, r);
      case Timer(r) => assert InFlight(s, r);
      case Drain(r) =>
    }
  }
}
