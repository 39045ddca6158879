/** What each event does to a request transport: which requests start, which wait, which fail behind another, and what
    is reported, over whole runs. */
module RequestEffects {
  import opened Wrappers
  import opened Utils
  import opened RequestScheduling

  // --------------------------------------------------------------------------- what is reported

  /** What an event tells the client: the outcome the network gave, unless the request timed out before; a timeout; or
      that a previous request failed. */
  function Told(s: State, e: Event): seq<Report> {
    match e
    case Wire(r, kind) => if r.id in s.expired then [] else [Report(r, kind)]
    case Timer(r) => [Report(r, TimedOut)]
    case Drain(r) => [Report(r, PreviousFailed)]
    case _ => []
  }

  lemma QuietOperations(c: Config, s: State, r: Request, success: bool, e: Envelope)
    ensures CompleteOrdinary(c, s, r, success).reports == s.reports
    ensures CompleteOrdinary(c, s, r, success).expired <= s.expired
    ensures Send(c, s, e).reports == s.reports && Send(c, s, e).expired <= s.expired
  {
  }

  lemma NeverMismatched(s: State, e: Event)
    requires Tracked(s) && Enabled(s, e) && (e.Wire? || e.Timer? || e.Drain?)
    requires e.Wire? ==> e.request.id !in s.expired
    ensures !LongPollMismatch(s, e.request)
  {
    if e.Drain? {
      assert Parked(s, e.request);
    } else {
      assert InFlight(s, e.request);
    }
  }

  lemma StepReports(c: Config, s: State, e: Event)
    requires Tracked(s) && Enabled(s, e)
    ensures After(c, s, e).reports == s.reports + Told(s, e)
  {
    if e.Wire? || e.Timer? || e.Drain? {
      if !(e.Wire? && e.request.id in s.expired) {
        NeverMismatched(s, e);
      }
    }
  }

  /** The request has timed out during the first i events. */
  ghost predicate TimedOutBefore(events: seq<Event>, i: nat, id: nat)
    requires i <= |events|
  {
    exists j :: 0 <= j < i && events[j].Timer? && events[j].request.id == id
  }

  lemma StepExpires(c: Config, s: State, e: Event, id: nat)
    requires Tracked(s) && Enabled(s, e)
    ensures id in After(c, s, e).expired <==> id in s.expired || (e.Timer? && e.request.id == id)
  {
    assert s.requestIds + 1 !in s.expired;
    if e.Wire? || e.Timer? || e.Drain? {
      if !(e.Wire? && e.request.id in s.expired) {
        NeverMismatched(s, e);
      }
      if e.Timer? {
        assert InFlight(s, e.request) && e.request in s.wire;
      }
    }
  }

  lemma {:induction false} ExpiredMeansTimedOut(c: Config, states: seq<State>, events: seq<Event>, i: nat, id: nat)
    requires c.maxConnections >= 2 && IsRun(c, states, events) && i <= |events|
    ensures id in states[i].expired <==> TimedOutBefore(events, i, id)
  {
    if i > 0 {
      ExpiredMeansTimedOut(c, states, events, i - 1, id);
      EventExpires(c, states, events, i - 1, id);
      OneEventMore(events, i, id);
    }
  }

  lemma EventExpires(c: Config, states: seq<State>, events: seq<Event>, i: nat, id: nat)
    requires c.maxConnections >= 2 && IsRun(c, states, events) && i < |events|
    ensures id in states[i + 1].expired <==>
              id in states[i].expired || (events[i].Timer? && events[i].request.id == id)
  {
    RunKeepsInv(c, states, events, i);
    StepExpires(c, states[i], events[i], id);
  }

  lemma OneEventMore(events: seq<Event>, i: nat, id: nat)
    requires 0 < i <= |events|
    ensures TimedOutBefore(events, i, id) <==>
              TimedOutBefore(events, i - 1, id) || (events[i - 1].Timer? && events[i - 1].request.id == id)
  {
  }

  /** In every run each event adds exactly its own report, of the outcome it brought: a reply, an empty reply, a
      failure, a timeout or the failure of a previous request; and the network's word on a request that timed out adds
      none. */
  lemma EventsTell(c: Config, states: seq<State>, events: seq<Event>, i: nat)
    requires c.maxConnections >= 2 && IsRun(c, states, events) && i < |events|
    ensures states[i + 1].reports == states[i].reports +
              match events[i]
              case Wire(r, kind) => if TimedOutBefore(events, i, r.id) then [] else [Report(r, kind)]
              case Timer(r) => [Report(r, TimedOut)]
              case Drain(r) => [Report(r, PreviousFailed)]
              case _ => []
  {
    RunKeepsInv(c, states, events, i);
    StepReports(c, states[i], events[i]);
    if events[i].Wire? {
      ExpiredMeansTimedOut(c, states, events, i, events[i].request.id);
    }
  }

  predicate Causes(e: Event, r: Report) {
    match e
    case Wire(q, kind) => r == Report(q, kind)
    case Timer(q) => r == Report(q, TimedOut)
    case Drain(q) => r == Report(q, PreviousFailed)
    case _ => false
  }

  lemma {:induction false} ReportsGrow(c: Config, states: seq<State>, events: seq<Event>, i: nat, j: nat)
    requires c.maxConnections >= 2 && IsRun(c, states, events) && i <= j <= |events|
    ensures states[i].reports <= states[j].reports
    decreases j - i
  {
    if i < j {
      OneEventAppends(c, states, events, i);
      ReportsGrow(c, states, events, i + 1, j);
    }
  }

  /** An event adds no report, or one that it causes. */
  lemma OneEventAppends(c: Config, states: seq<State>, events: seq<Event>, i: nat)
    requires c.maxConnections >= 2 && IsRun(c, states, events) && i < |events|
    ensures states[i].reports <= states[i + 1].reports && |states[i + 1].reports| <= |states[i].reports| + 1
    ensures |states[i + 1].reports| == |states[i].reports| + 1 ==>
              Causes(events[i], states[i + 1].reports[|states[i].reports|])
  {
    EventsTell(c, states, events, i);
  }

  /** Every report of a run was caused by one event, which brought just that outcome for just that request, and by no
      other event. */
  lemma {:induction false} ReportsAreCaused(c: Config, states: seq<State>, events: seq<Event>, i: nat, k: nat)
    returns (j: nat)
    requires c.maxConnections >= 2 && IsRun(c, states, events) && i <= |events| && k < |states[i].reports|
    ensures j < i && |states[j].reports| == k && states[j + 1].reports == states[j].reports + [states[i].reports[k]]
    ensures Causes(events[j], states[i].reports[k])
    ensures forall j' | 0 <= j' < i && |states[j'].reports| == k < |states[j' + 1].reports| :: j' == j
  {
    OneEventAppends(c, states, events, i - 1);
    if k < |states[i - 1].reports| {
      j := ReportsAreCaused(c, states, events, i - 1, k);
    } else {
      j := i - 1;
    }
    OnlyOneCause(c, states, events, i, j, k);
  }

  lemma OnlyOneCause(c: Config, states: seq<State>, events: seq<Event>, i: nat, j: nat, k: nat)
    requires c.maxConnections >= 2 && IsRun(c, states, events) && j < i <= |events|
    requires |states[j].reports| == k < |states[j + 1].reports|
    ensures forall j' | 0 <= j' < i && |states[j'].reports| == k < |states[j' + 1].reports| :: j' == j
  {
    forall a: nat, b: nat | a <= b <= i ensures |states[a].reports| <= |states[b].reports| {
      ReportsGrow(c, states, events, a, b);
    }
  }

  // --------------------------------------------------------------------- what starts and what waits

  /** From what was outstanding, q starts under a fresh number: its messages are transmitted, and it has a timeout
      unless it is synchronous. */
  ghost predicate Starts(s: State, t: State, q: Request, wire: set<Request>, timers: set<Request>) {
    && q.id == s.requestIds + 1 == t.requestIds
    && t.wire == wire + {q}
    && t.timers == timers + (if q.envelope.sync then {} else {q})
    && t.transmitted == s.transmitted + (if q.metaConnect then [] else q.envelope.messages)
  }

  ghost predicate StartsNothing(s: State, t: State, wire: set<Request>, timers: set<Request>) {
    t.requestIds == s.requestIds && t.wire == wire && t.timers == timers && t.transmitted == s.transmitted
  }

  /** An envelope takes a free slot and starts at once, or waits at the end of the queue. */
  lemma SubmitStartsOrQueues(c: Config, s: State, env: Envelope)
    ensures var t := After(c, s, Submit(env));
            var q := Request(s.requestIds + 1, false, env);
            && t.drains == s.drains && t.metaConnectRequest == s.metaConnectRequest
            && t.submitted == s.submitted + env.messages && t.metaSubmitted == s.metaSubmitted
            && if |s.requests| < c.maxConnections - 1 then
                 t.requests == s.requests + [q] && t.envelopes == s.envelopes && Starts(s, t, q, s.wire, s.timers)
               else
                 && t.requests == s.requests && t.envelopes == s.envelopes + [q] && t.requestIds == q.id
                 && t.wire == s.wire && t.timers == s.timers && t.transmitted == s.transmitted
  {
  }

  /** A long poll starts if there is none, and is refused without a trace otherwise. */
  lemma LongPollStartsOrThrows(c: Config, s: State, env: Envelope)
    ensures var t := After(c, s, SubmitMetaConnect(env));
            var q := Request(s.requestIds + 1, true, env);
            && (Step(c, s, SubmitMetaConnect(env)).Err? <==> s.metaConnectRequest.Some?)
            && if s.metaConnectRequest.Some? then t == s
               else
                 && t.metaConnectRequest == Some(q) && Starts(s, t, q, s.wire, s.timers)
                 && t.requests == s.requests && t.envelopes == s.envelopes && t.drains == s.drains
                 && t.submitted == s.submitted && t.metaSubmitted == s.metaSubmitted + env.messages
  {
  }

  /** How a request ends: by the word of the network or by its timeout. */
  predicate Ends(s: State, e: Event) {
    (e.Wire? && e.request.id !in s.expired) || e.Timer?
  }

  function WireLeft(s: State, e: Event): set<Request> {
    if e.Wire? then s.wire - {e.request} else s.wire
  }

  function TimersLeft(s: State, e: Event): set<Request> {
    if e.Wire? || e.Timer? then s.timers - {e.request} else s.timers
  }

  /** The end of a long poll frees its place and touches nothing else. */
  lemma LongPollEnds(c: Config, s: State, e: Event)
    requires Tracked(s) && Enabled(s, e) && Ends(s, e) && e.request.metaConnect
    ensures var t := After(c, s, e);
            && t.metaConnectRequest == None && StartsNothing(s, t, WireLeft(s, e), TimersLeft(s, e))
            && t.requests == s.requests && t.envelopes == s.envelopes && t.drains == s.drains
  {
    NeverMismatched(s, e);
  }

  /** The network's word on a request that has timed out is ignored. */
  lemma LateWordIgnored(c: Config, s: State, e: Event)
    requires Enabled(s, e) && e.Wire? && e.request.id in s.expired
    ensures After(c, s, e) == s.(wire := s.wire - {e.request})
  {
  }

  /** A report for another long poll than the one in flight, as after a reset, throws: the request is expected no
      longer, and nothing else has changed. */
  lemma MismatchThrows(c: Config, s: State, e: Event)
    requires Enabled(s, e) && Ends(s, e) && LongPollMismatch(s, e.request)
    ensures Step(c, s, e).Err?
    ensures var t := After(c, s, e);
            && t.metaConnectRequest == s.metaConnectRequest && t.requests == s.requests && t.envelopes == s.envelopes
            && t.drains == s.drains && t.reports == s.reports
            && StartsNothing(s, t, WireLeft(s, e), TimersLeft(s, e))
            && t.expired == s.expired + (if e.Timer? then {e.request.id} else {})
  {
  }

  /** The longest run of queued envelopes that may join env, or none without batching. */
  ghost predicate Joins(c: Config, env: Envelope, queue: seq<Request>, k: nat) {
    if !c.autoBatch then k == 0
    else
      && k <= |queue|
      && (forall i | 0 <= i < k :: queue[i].envelope.url == env.url && queue[i].envelope.sync == env.sync)
      && (k < |queue| ==> queue[k].envelope.url != env.url || queue[k].envelope.sync != env.sync)
  }

  /** When an ordinary request succeeds, its slot goes to the first waiting envelope, merged with all that may join it,
      and those behind keep waiting. */
  lemma SuccessStartsNext(c: Config, s: State, e: Event) returns (k: nat, joined: seq<Message>)
    requires c.maxConnections >= 2 && Inv(c, s) && Enabled(s, e) && Ends(s, e) && !e.request.metaConnect
    requires e.Wire? && e.kind != Failed
    ensures var t := After(c, s, e);
            && t.metaConnectRequest == s.metaConnectRequest && t.drains == s.drains
            && (s.envelopes == [] ==>
                  && t.envelopes == [] && t.requests == Remove(s.requests, e.request)
                  && StartsNothing(s, t, WireLeft(s, e), TimersLeft(s, e)))
            && (s.envelopes != [] ==>
                  var first, behind := s.envelopes[0].envelope, s.envelopes[1..];
                  var q := Request(s.requestIds + 1, false, Envelope(first.url, first.sync, first.messages + joined));
                  && k <= |behind| && Joins(c, first, behind, k) && joined == Queued(behind[..k])
                  && t.envelopes == behind[k..] && t.requests == Remove(s.requests, e.request) + [q]
                  && Starts(s, t, q, WireLeft(s, e), TimersLeft(s, e)))
  {
    k, joined := 0, [];
    NeverMismatched(s, e);
    assert InFlight(s, e.request);
    RemoveOne(s.requests, e.request);
    if s.envelopes != [] {
      var first, behind := s.envelopes[0].envelope, s.envelopes[1..];
      if c.autoBatch {
        k := CoalesceTakesLongestPrefix(first, behind);
        joined := Queued(behind[..k]);
      } else {
        assert first.messages + joined == first.messages;
        assert behind[0..] == behind;
      }
    }
  }

  predicate EndsBadly(s: State, e: Event) {
    (e.Wire? && e.request.id !in s.expired && e.kind == Failed) || e.Timer? || e.Drain?
  }

  /** When an ordinary request fails, times out or is drained, nothing starts, and the first waiting envelope is put
      aside to fail next. */
  lemma FailureDrainsNext(c: Config, s: State, e: Event)
    requires Tracked(s) && Enabled(s, e) && EndsBadly(s, e) && !e.request.metaConnect
    ensures var t := After(c, s, e);
            var drains := if e.Drain? then Remove(s.drains, e.request) else s.drains;
            && t.metaConnectRequest == s.metaConnectRequest && t.requests == Remove(s.requests, e.request)
            && StartsNothing(s, t, WireLeft(s, e), TimersLeft(s, e))
            && (if s.envelopes == [] then t.envelopes == [] && t.drains == drains
                else t.envelopes == s.envelopes[1..] && t.drains == drains + [s.envelopes[0]])
  {
  }

  /** In every run the pending timeouts are those of the asynchronous requests in flight, and of no other. */
  lemma {:induction false} TimersAreForAsync(c: Config, states: seq<State>, events: seq<Event>, i: nat, r: Request)
    requires c.maxConnections >= 2 && IsRun(c, states, events) && i <= |events|
    ensures r in states[i].timers <==> InFlight(states[i], r) && !r.envelope.sync
  {
    RunKeepsInv(c, states, events, i);
    if i > 0 {
      TimersAreForAsync(c, states, events, i - 1, r);
      RunKeepsInv(c, states, events, i - 1);
      TimersStep(c, states[i - 1], events[i - 1], r);
      assert states[i - 1 + 1] == After(c, states[i - 1], events[i - 1]);
    }
  }

  lemma TimersStep(c: Config, s: State, e: Event, r: Request)
    requires Tracked(s) && Enabled(s, e)
    ensures r in After(c, s, e).timers && r !in s.timers ==> !r.envelope.sync
  {
  }
}
