/** The backoff that counts failures, and how long repeated retries wait. */
module SessionBackoff {
  import opened Wrappers
  import opened Utils
  import opened BayeuxSession
  import opened SessionSafety

  // -------------------------------------------------------------------------- retry delays

  /** The backoff after n increases from zero. */
  function BackoffAfter(c: Config, n: nat): nat {
    if n == 0 then 0
    else
      var b := BackoffAfter(c, n - 1);
      if b < c.maxBackoff then b + c.backoffIncrement else b
  }

  lemma IncreaseIsBackoffAfter(c: Config, s: State, n: nat)
    requires s.backoff == BackoffAfter(c, n)
    ensures IncreaseBackoff(c, s).backoff == BackoffAfter(c, n + 1)
  {
  }

  function Min(a: nat, b: nat): nat {
    if a <= b then a else b
  }

  /** The number of increases that reach the cap: maxBackoff / increment, rounded up. */
  function Steps(c: Config): nat
    requires c.backoffIncrement > 0
  {
    (c.maxBackoff + c.backoffIncrement - 1) / c.backoffIncrement
  }

  lemma ProductMonotone(a: nat, b: nat, inc: nat)
    requires a <= b
    ensures a * inc <= b * inc
  {
  }

  lemma StepsBound(c: Config, k: nat)
    requires c.backoffIncrement > 0
    ensures k < Steps(c) <==> k * c.backoffIncrement < c.maxBackoff
  {
    var inc, max := c.backoffIncrement, c.maxBackoff;
    var q := (max + inc - 1) / inc;
    assert q * inc <= max + inc - 1 < q * inc + inc;
    if k < q {
      ProductMonotone(k + 1, q, inc);
    } else {
      ProductMonotone(q, k, inc);
    }
  }

  /** After n consecutive failures the backoff is min(n, ceil(max / inc)) * inc, and always below max + inc. */
  lemma {:induction false} BackoffClosedForm(c: Config, n: nat)
    requires c.backoffIncrement > 0
    ensures BackoffAfter(c, n) == Min(n, Steps(c)) * c.backoffIncrement
    ensures BackoffAfter(c, n) < c.maxBackoff + c.backoffIncrement
  {
    if n > 0 {
      BackoffClosedForm(c, n - 1);
      StepsBound(c, Min(n - 1, Steps(c)));
    }
  }

  // ----------------------------------------------------------------- the backoff of the client

  predicate IsOperationReport(e: Event) {
    e.HandshakeReply? || e.HandshakeLost? || e.ConnectReply? || e.ConnectLost?
  }

  function AdviceOf(s: State, e: Event): Advice {
    if e.HandshakeReply? || e.ConnectReply? then UpdateAdvice(s, e.newAdvice).advice else s.advice
  }

  /** A handshake or a /meta/connect failed, and the client tries the same again. */
  predicate FailsAgain(s: State, e: Event) {
    && !IsDisconnected(s)
    && match e
       case HandshakeReply(_, successful, _, _, _) => !successful && !AdviceOf(s, e).reconnect.NoReconnect?
       case HandshakeLost(_, negotiates) => s.transport && negotiates && !s.advice.reconnect.NoReconnect?
       case ConnectReply(_, successful, _) => !successful && AdviceOf(s, e).reconnect.Retry?
       case ConnectLost(_) => s.advice.reconnect.Retry?
       case _ => false
  }

  /** Any other outcome of an operation that does not throw, and the end of a session. */
  predicate StartsOver(c: Config, s: State, e: Event)
    requires Enabled(s, e)
  {
    e.DisconnectReply? || (IsOperationReport(e) && !FailsAgain(s, e) && Step(c, s, e).Ok?)
  }

  /** How many failures in a row the first i events end with. */
  ghost function Streak(c: Config, states: seq<State>, events: seq<Event>, i: nat): nat
    requires IsRun(c, states, events) && i <= |events|
  {
    if i == 0 then 0
    else CountFailure(c, states[i - 1], events[i - 1], Streak(c, states, events, i - 1))
  }

  function CountFailure(c: Config, s: State, e: Event, n: nat): nat
    requires Enabled(s, e)
  {
    if FailsAgain(s, e) then n + 1 else if StartsOver(c, s, e) then 0 else n
  }

  /** One failure more increases the backoff, starting over resets it, and nothing else touches it. */
  function NextBackoff(c: Config, s: State, e: Event): nat
    requires Enabled(s, e)
  {
    if FailsAgain(s, e) then IncreaseBackoff(c, s).backoff else if StartsOver(c, s, e) then 0 else s.backoff
  }

  lemma FailHandshakeBackoff(c: Config, s: State, id: nat)
    ensures FailHandshake(c, s, id).backoff ==
            if !IsDisconnected(s) && !s.advice.reconnect.NoReconnect? then IncreaseBackoff(c, s).backoff else 0
  {
  }

  lemma HandshakeFailedBackoff(c: Config, s: State, id: nat, negotiates: bool)
    ensures Left(HandshakeFailed(c, s, id, negotiates)).backoff ==
            if !s.transport then s.backoff else if negotiates then FailHandshake(c, s, id).backoff else 0
  {
    FailHandshakeBackoff(c, Disconnect(s), id);
  }

  lemma FailConnectBackoff(c: Config, s: State)
    ensures Left(FailConnect(c, s)).backoff ==
            if FailConnect(c, s).Err? then s.backoff
            else if !IsDisconnected(s) && s.advice.reconnect.Retry? then IncreaseBackoff(c, s).backoff
            else 0
  {
  }

  lemma FlushKeepsBackoff(c: Config, s: State)
    ensures FlushBatch(c, s).backoff == s.backoff
  {
  }

  lemma HandshakeSucceededBackoff(c: Config, s: State, id: nat, clientId: Option<string>, negotiates: bool)
    ensures var r := HandshakeSucceeded(c, s, id, clientId, negotiates);
            Left(r).backoff == if r.Ok? then 0 else s.backoff
  {
    FlushKeepsBackoff(c, s.(clientId := clientId, internalBatch := false));
  }

  lemma HandshakeAcceptedBackoff(c: Config, s: State, e: Event)
    requires Enabled(s, e) && e.HandshakeReply? && e.successful
    ensures After(c, s, e).backoff == NextBackoff(c, s, e)
  {
    HandshakeSucceededBackoff(c, UpdateAdvice(Landed(s, e.m), e.newAdvice), e.m.id, Some(e.clientId), e.negotiates);
  }

  lemma HandshakeRefusedBackoff(c: Config, s: State, e: Event)
    requires Enabled(s, e) && e.HandshakeReply? && !e.successful
    ensures After(c, s, e).backoff == NextBackoff(c, s, e)
  {
    var s1 := UpdateAdvice(Landed(s, e.m), e.newAdvice);
    assert Step(c, s, e) == Ok(FailHandshake(c, s1, e.m.id));
    FailHandshakeBackoff(c, s1, e.m.id);
    assert IncreaseBackoff(c, s1).backoff == IncreaseBackoff(c, s).backoff;
  }

  lemma HandshakeLostBackoff(c: Config, s: State, e: Event)
    requires Enabled(s, e) && e.HandshakeLost?
    ensures After(c, s, e).backoff == NextBackoff(c, s, e)
  {
    HandshakeFailedBackoff(c, Landed(s, e.m), e.m.id, e.negotiates);
    FailHandshakeBackoff(c, Landed(s, e.m), e.m.id);
  }

  lemma ConnectReplyBackoff(c: Config, s: State, e: Event)
    requires Enabled(s, e) && e.ConnectReply?
    ensures After(c, s, e).backoff == NextBackoff(c, s, e)
  {
    var s1 := UpdateAdvice(Landed(s, e.m), e.newAdvice).(connected := e.successful);
    if e.successful {
      ProceedBackoff(s1);
      assert Step(c, s, e) == Proceed(s1);
    } else {
      FailConnectBackoff(c, s1);
      assert Step(c, s, e) == FailConnect(c, s1);
    }
  }

  lemma ProceedBackoff(s: State)
    ensures Left(Proceed(s)).backoff == if Proceed(s).Ok? then 0 else s.backoff
  {
  }

  lemma ConnectLostBackoff(c: Config, s: State, e: Event)
    requires Enabled(s, e) && e.ConnectLost?
    ensures After(c, s, e).backoff == NextBackoff(c, s, e)
  {
    FailConnectBackoff(c, Landed(s, e.m).(connected := false));
  }

  lemma StartBackoff(c: Config, s: State, e: Event)
    requires Enabled(s, e) && (e.AppHandshake? || e.AppDisconnect? || e.TimerFires?)
    ensures After(c, s, e).backoff == NextBackoff(c, s, e)
  {
  }

  lemma OtherBackoff(c: Config, s: State, e: Event)
    requires Enabled(s, e) && !IsOperationReport(e) && !e.AppHandshake? && !e.AppDisconnect? && !e.TimerFires?
    ensures After(c, s, e).backoff == NextBackoff(c, s, e)
  {
  }

  lemma StepBackoff(c: Config, s: State, e: Event)
    requires Enabled(s, e)
    ensures After(c, s, e).backoff == NextBackoff(c, s, e)
  {
    match e
    case HandshakeReply(_, successful, _, _, _) =>
      if successful {
        HandshakeAcceptedBackoff(c, s, e);
      } else {
        HandshakeRefusedBackoff(c, s, e);
      }
    case HandshakeLost(_, _) => HandshakeLostBackoff(c, s, e);
    case ConnectReply(_, _, _) => ConnectReplyBackoff(c, s, e);
    case ConnectLost(_) => ConnectLostBackoff(c, s, e);
    case AppHandshake(_, _) => StartBackoff(c, s, e);
    case AppDisconnect(_) => StartBackoff(c, s, e);
    case TimerFires(_) => StartBackoff(c, s, e);
    case _ => OtherBackoff(c, s, e);
  }

  lemma CountBackoff(c: Config, s: State, e: Event, n: nat)
    requires Enabled(s, e) && s.backoff == BackoffAfter(c, n)
    ensures After(c, s, e).backoff == BackoffAfter(c, CountFailure(c, s, e, n))
  {
    StepBackoff(c, s, e);
    IncreaseIsBackoffAfter(c, s, n);
  }

  lemma {:induction false} StreakBackoff(c: Config, states: seq<State>, events: seq<Event>, i: nat)
    requires IsRun(c, states, events) && i <= |events|
    ensures states[i].backoff == BackoffAfter(c, Streak(c, states, events, i))
  {
    if i > 0 {
      StreakBackoff(c, states, events, i - 1);
      CountBackoff(c, states[i - 1], events[i - 1], Streak(c, states, events, i - 1));
      assert states[i - 1 + 1] == After(c, states[i - 1], events[i - 1]);
    }
  }

  /** In every run the backoff is the one of the failures in a row, whatever happens in between: after n of them
      min(n, ceil(max / inc)) * inc, always below max + inc. */
  lemma BackoffCountsFailures(c: Config, states: seq<State>, events: seq<Event>, i: nat)
    requires IsRun(c, states, events) && i <= |events|
    ensures states[i].backoff == BackoffAfter(c, Streak(c, states, events, i))
    ensures c.backoffIncrement > 0 ==>
              && states[i].backoff == Min(Streak(c, states, events, i), Steps(c)) * c.backoffIncrement
              && states[i].backoff < c.maxBackoff + c.backoffIncrement
  {
    StreakBackoff(c, states, events, i);
    if c.backoffIncrement > 0 {
      BackoffClosedForm(c, Streak(c, states, events, i));
    }
  }

  // ------------------------------------------------------------------ delays of repeated failures

  /** One failed handshake and the retry that the timer then sends. */
  function HandshakeRetry(c: Config, s: State): State {
    Left(Handshake(c, FailHandshake(c, s, 0).(scheduled := None), false, true))
  }

  function HandshakeDelay(c: Config, s: State): nat {
    var t := FailHandshake(c, s, 0);
    if t.scheduled.Some? then t.scheduled.value.delay else 0
  }

  /** One failed /meta/connect and the retry that the timer then sends. */
  function ConnectRetry(c: Config, s: State): State {
    Connect(c, Left(FailConnect(c, s)).(scheduled := None))
  }

  function ConnectDelay(c: Config, s: State): nat {
    var t := Left(FailConnect(c, s));
    if t.scheduled.Some? then t.scheduled.value.delay else 0
  }

  ghost predicate Retrying(s: State) {
    !IsDisconnected(s) && s.transport && s.advice.reconnect.Retry?
  }

  lemma OneHandshakeRetry(c: Config, s: State)
    requires Retrying(s)
    ensures var t := HandshakeRetry(c, s);
            Retrying(t) && t.backoff == IncreaseBackoff(c, s).backoff && t.advice.interval == s.advice.interval
    ensures HandshakeDelay(c, s) == s.advice.interval + IncreaseBackoff(c, s).backoff
  {
  }

  lemma OneConnectRetry(c: Config, s: State)
    requires Retrying(s)
    ensures var t := ConnectRetry(c, s);
            Retrying(t) && t.backoff == IncreaseBackoff(c, s).backoff && t.advice.interval == s.advice.interval
    ensures ConnectDelay(c, s) == s.advice.interval + s.backoff
  {
  }

  /** Consecutive failures from a reset backoff: the state before each, and how long its retry waits. */
  ghost predicate HandshakesFail(c: Config, states: seq<State>, delays: seq<nat>) {
    && FromReset(states, delays)
    && (forall i | 0 <= i < |delays| :: delays[i] == HandshakeDelay(c, states[i]))
    && (forall i | 0 <= i < |delays| :: states[i + 1] == HandshakeRetry(c, states[i]))
  }

  ghost predicate ConnectsFail(c: Config, states: seq<State>, delays: seq<nat>) {
    && FromReset(states, delays)
    && (forall i | 0 <= i < |delays| :: delays[i] == ConnectDelay(c, states[i]))
    && (forall i | 0 <= i < |delays| :: states[i + 1] == ConnectRetry(c, states[i]))
  }

  ghost predicate FromReset(states: seq<State>, delays: seq<nat>) {
    |states| == |delays| + 1 && Retrying(states[0]) && states[0].backoff == 0
  }

  /** The first n increases all start below the cap. */
  predicate BelowCap(c: Config, n: nat) {
    n > 0 ==> (n - 1) * c.backoffIncrement < c.maxBackoff
  }

  lemma {:induction false} BackoffBelowCap(c: Config, n: nat)
    requires BelowCap(c, n)
    ensures BackoffAfter(c, n) == n * c.backoffIncrement
  {
    if n > 0 {
      BelowCapEarlier(c, n, n - 1);
      BackoffBelowCap(c, n - 1);
      assert n * c.backoffIncrement == (n - 1) * c.backoffIncrement + c.backoffIncrement;
    }
  }

  lemma BelowCapEarlier(c: Config, n: nat, i: nat)
    requires BelowCap(c, n) && i <= n
    ensures BelowCap(c, i)
  {
    if i > 0 {
      ProductMonotone(i - 1, n - 1, c.backoffIncrement);
    }
  }

  /** Before the i-th retry of a handshake there were i failures; the delays are the interval and the backoff that
      includes the latest failure. */
  lemma {:induction false} HandshakeAt(c: Config, states: seq<State>, delays: seq<nat>, i: nat)
    requires HandshakesFail(c, states, delays) && i <= |delays|
    ensures Retrying(states[i]) && states[i].backoff == BackoffAfter(c, i)
    ensures states[i].advice.interval == states[0].advice.interval
    ensures i < |delays| ==> delays[i] == states[0].advice.interval + BackoffAfter(c, i + 1)
  {
    if i > 0 {
      HandshakeAt(c, states, delays, i - 1);
      HandshakeStep(c, states, delays, i - 1);
    }
    if i < |delays| {
      HandshakeStep(c, states, delays, i);
    }
  }

  lemma HandshakeStep(c: Config, states: seq<State>, delays: seq<nat>, i: nat)
    requires HandshakesFail(c, states, delays) && i < |delays| && Retrying(states[i])
    ensures var s, t := states[i], states[i + 1];
            Retrying(t) && t.backoff == IncreaseBackoff(c, s).backoff && t.advice.interval == s.advice.interval
    ensures delays[i] == states[i].advice.interval + IncreaseBackoff(c, states[i]).backoff
  {
    OneHandshakeRetry(c, states[i]);
  }

  /** The same for /meta/connect, whose delays do not yet include the latest failure. */
  lemma {:induction false} ConnectAt(c: Config, states: seq<State>, delays: seq<nat>, i: nat)
    requires ConnectsFail(c, states, delays) && i <= |delays|
    ensures Retrying(states[i]) && states[i].backoff == BackoffAfter(c, i)
    ensures states[i].advice.interval == states[0].advice.interval
    ensures i < |delays| ==> delays[i] == states[0].advice.interval + BackoffAfter(c, i)
  {
    if i > 0 {
      ConnectAt(c, states, delays, i - 1);
      ConnectStep(c, states, delays, i - 1);
    }
    if i < |delays| {
      ConnectStep(c, states, delays, i);
    }
  }

  lemma ConnectStep(c: Config, states: seq<State>, delays: seq<nat>, i: nat)
    requires ConnectsFail(c, states, delays) && i < |delays| && Retrying(states[i])
    ensures var s, t := states[i], states[i + 1];
            Retrying(t) && t.backoff == IncreaseBackoff(c, s).backoff && t.advice.interval == s.advice.interval
    ensures delays[i] == states[i].advice.interval + states[i].backoff
  {
    OneConnectRetry(c, states[i]);
  }

  lemma ArithmeticStep(first: nat, inc: nat, n: nat, sum: nat)
    requires 2 * sum == 2 * n * first + inc * (n * (n - 1))
    ensures 2 * (sum + (first + n * inc)) == 2 * (n + 1) * first + inc * ((n + 1) * n)
  {
    assert 2 * (n + 1) * first == 2 * n * first + 2 * first;
    assert (n + 1) * n == n * (n - 1) + 2 * n;
    assert inc * (n * (n - 1) + 2 * n) == inc * (n * (n - 1)) + 2 * (n * inc);
  }

  /** Delays that grow by one increment each. */
  lemma {:induction false} ArithmeticSum(first: nat, inc: nat, xs: seq<nat>)
    requires forall i | 0 <= i < |xs| :: xs[i] == first + i * inc
    ensures 2 * Sum(xs) == 2 * |xs| * first + inc * (|xs| * (|xs| - 1))
  {
    if xs != [] {
      var n := |xs| - 1;
      ArithmeticSum(first, inc, xs[..n]);
      SumSnoc(xs[..n], xs[n]);
      assert xs == xs[..n] + [xs[n]];
      ArithmeticStep(first, inc, n, Sum(xs[..n]));
    }
  }

  lemma SumFromFirst(interval: nat, inc: nat, xs: seq<nat>)
    requires forall i | 0 <= i < |xs| :: xs[i] == (interval + inc) + i * inc
    ensures var n := |xs|; 2 * Sum(xs) == 2 * n * interval + inc * (n * (n + 1))
  {
    var n := |xs|;
    ArithmeticSum(interval + inc, inc, xs);
    assert inc * (2 * n + n * (n - 1)) == inc * (2 * n) + inc * (n * (n - 1));
    assert 2 * n + n * (n - 1) == n * (n + 1);
    assert 2 * n * (interval + inc) == 2 * n * interval + inc * (2 * n);
  }

  /** The documented delays 1, 3, 6, 10, 15 hold for handshakes: from a reset backoff and below the cap the first n
      retries take n * interval + inc * n * (n + 1) / 2. */
  lemma HandshakeRetriesFromReset(c: Config, states: seq<State>, delays: seq<nat>)
    requires HandshakesFail(c, states, delays) && BelowCap(c, |delays|)
    ensures var n := |delays|;
            2 * Sum(delays) == 2 * n * states[0].advice.interval + c.backoffIncrement * (n * (n + 1))
  {
    forall i | 0 <= i < |delays|
      ensures delays[i] == (states[0].advice.interval + c.backoffIncrement) + i * c.backoffIncrement
    {
      HandshakeAt(c, states, delays, i);
      BelowCapEarlier(c, |delays|, i + 1);
      BackoffBelowCap(c, i + 1);
      assert (i + 1) * c.backoffIncrement == c.backoffIncrement + i * c.backoffIncrement;
    }
    SumFromFirst(states[0].advice.interval, c.backoffIncrement, delays);
  }

  /** A /meta/connect lags one increment behind, because it schedules the retry before it increases the backoff:
      n * interval + inc * n * (n - 1) / 2. */
  lemma ConnectRetriesFromReset(c: Config, states: seq<State>, delays: seq<nat>)
    requires ConnectsFail(c, states, delays) && BelowCap(c, |delays|)
    ensures var n := |delays|;
            2 * Sum(delays) == 2 * n * states[0].advice.interval + c.backoffIncrement * (n * (n - 1))
  {
    var interval, inc, n := states[0].advice.interval, c.backoffIncrement, |delays|;
    forall i | 0 <= i < n ensures delays[i] == interval + i * inc {
      ConnectAt(c, states, delays, i);
      BelowCapEarlier(c, n, i);
      BackoffBelowCap(c, i);
    }
    ArithmeticSum(interval, inc, delays);
  }
}
