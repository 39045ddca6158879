/** The listener table: which listeners a message reaches, and what subscribing tells the server. */
module Channels {
  import opened Wrappers
  import opened Strings
  import opened Utils

  /** `listener` tells listeners added by addListener from subscriptions. */
  datatype Entry = Entry(listener: bool)

  type Slots = seq<Option<Entry>>

  type Table = map<string, Slots>

  function SlotsOf(t: Table, channel: string): Slots {
    if channel in t then t[channel] else []
  }

  predicate LiveAt(t: Table, channel: string, id: nat) {
    id < |SlotsOf(t, channel)| && SlotsOf(t, channel)[id].Some?
  }

  /** One notification: the channel and the index under which the listener is stored. */
  type Notification = (string, nat)

  // ---------------------------------------------------------------------- globbing

  /** Channel Globbing of the Bayeux protocol 1.0: a channel matches itself, a trailing `*` one last segment, a
      trailing `**` one or more last segments. */
  predicate Matches(pattern: string, channel: string) {
    var p, c := Split(pattern, '/'), Split(channel, '/');
    var n := |p| - 1;
    || pattern == channel
    || (n >= 1 && p[n] == "*" && |c| == |p| && p[..n] == c[..n])
    || (n >= 1 && p[n] == "**" && |c| >= |p| && p[..n] == c[..n])
  }

  /** The patterns looked up for the channel parts, from the i-th prefix down. */
  function Globs(parts: seq<string>, i: nat): seq<string>
    requires i < |parts|
  {
    if i == 0 then []
    else
      var glob := Join(parts[..i], '/') + "/*";
      (if i == |parts| - 1 then [glob] else []) + [glob + "*"] + Globs(parts, i - 1)
  }

  function Patterns(channel: string): seq<string> {
    var parts := Split(channel, '/');
    [channel] + Globs(parts, |parts| - 1)
  }

  function LiveFrom(t: Table, channel: string, i: nat): seq<Notification>
    requires i <= |SlotsOf(t, channel)|
    decreases |SlotsOf(t, channel)| - i
  {
    if i == |SlotsOf(t, channel)| then []
    else (if SlotsOf(t, channel)[i].Some? then [(channel, i)] else []) + LiveFrom(t, channel, i + 1)
  }

  function Notified(t: Table, patterns: seq<string>): seq<Notification> {
    if patterns == [] then [] else LiveFrom(t, patterns[0], 0) + Notified(t, patterns[1..])
  }

  lemma GlobIsJoin(parts: seq<string>, i: nat)
    requires 0 < i < |parts| && forall p | p in parts :: '/' !in p
    ensures var glob := Join(parts[..i], '/') + "/*";
            && glob == Join(parts[..i] + ["*"], '/') && Split(glob, '/') == parts[..i] + ["*"]
            && glob + "*" == Join(parts[..i] + ["**"], '/') && Split(glob + "*", '/') == parts[..i] + ["**"]
  {
    JoinSnoc(parts[..i], "*", '/');
    JoinSnoc(parts[..i], "**", '/');
    SplitJoin(parts[..i] + ["*"], '/');
    SplitJoin(parts[..i] + ["**"], '/');
    assert Join(parts[..i], '/') + ['/'] + "*" == Join(parts[..i], '/') + "/*";
    assert Join(parts[..i], '/') + ['/'] + "**" == Join(parts[..i], '/') + "/*" + "*";
  }

  /** The pattern's parts are those of one of the globs looked up from prefix i down. */
  predicate GlobParts(parts: seq<string>, i: nat, p: seq<string>)
    requires i < |parts|
  {
    var n := |p| - 1;
    1 <= n <= i && p[..n] == parts[..n] && (p[n] == "**" || (p[n] == "*" && n == |parts| - 1))
  }

  lemma {:induction false} GlobsAre(parts: seq<string>, i: nat, k: string)
    requires i < |parts| && forall p | p in parts :: '/' !in p
    ensures k in Globs(parts, i) <==> GlobParts(parts, i, Split(k, '/'))
  {
    if i > 0 {
      GlobsAre(parts, i - 1, k);
      GlobsAt(parts, i, k, "*");
      GlobsAt(parts, i, k, "**");
      GlobIsJoin(parts, i);
    }
  }

  /** A pattern is the one made from prefix i exactly if its parts are. */
  lemma GlobsAt(parts: seq<string>, i: nat, k: string, wildcard: string)
    requires 0 < i < |parts| && (forall p | p in parts :: '/' !in p) && '/' !in wildcard
    ensures var p := Split(k, '/');
            k == Join(parts[..i] + [wildcard], '/') <==> |p| - 1 == i && p[..i] == parts[..i] && p[i] == wildcard
  {
    JoinSplit(k, '/');
    SplitJoin(parts[..i] + [wildcard], '/');
    var p := Split(k, '/');
    if |p| - 1 == i && p[..i] == parts[..i] {
      assert p == parts[..i] + [p[i]];
    }
  }

  /** The patterns looked up are exactly the patterns that match. */
  lemma PatternsMatch(channel: string, k: string)
    ensures k in Patterns(channel) <==> Matches(k, channel)
  {
    var parts := Split(channel, '/');
    GlobsAre(parts, |parts| - 1, k);
  }

  lemma {:induction false} GlobsDistinct(parts: seq<string>, i: nat)
    requires i < |parts| && forall p | p in parts :: '/' !in p
    ensures NoRepeats(Globs(parts, i))
  {
    if i > 0 {
      GlobsDistinct(parts, i - 1);
      GlobIsJoin(parts, i);
      var glob := Join(parts[..i], '/') + "/*";
      GlobsAre(parts, i - 1, glob);
      GlobsAre(parts, i - 1, glob + "*");
    }
  }

  predicate EndsInWildcard(channel: string) {
    var parts := Split(channel, '/');
    |parts| >= 2 && (parts[|parts| - 1] == "*" || parts[|parts| - 1] == "**")
  }

  /** No pattern is looked up twice, exactly if the channel's last segment is not itself a wildcard. */
  lemma PatternsDistinctExactlyWhen(channel: string)
    ensures NoRepeats(Patterns(channel)) <==> !EndsInWildcard(channel)
  {
    var parts := Split(channel, '/');
    var last := |parts| - 1;
    GlobsDistinct(parts, last);
    GlobsAre(parts, last, channel);
    var globs := Globs(parts, last);
    if EndsInWildcard(channel) {
      assert channel in globs;
      var j :| 0 <= j < |globs| && globs[j] == channel;
      assert Patterns(channel)[0] == Patterns(channel)[j + 1];
    } else {
      assert channel !in globs;
    }
  }

  lemma {:induction false} LiveFromElems(t: Table, channel: string, i: nat)
    requires i <= |SlotsOf(t, channel)|
    ensures forall n :: n in LiveFrom(t, channel, i) <==> n.0 == channel && i <= n.1 && LiveAt(t, channel, n.1)
    ensures NoRepeats(LiveFrom(t, channel, i))
    decreases |SlotsOf(t, channel)| - i
  {
    if i < |SlotsOf(t, channel)| {
      LiveFromElems(t, channel, i + 1);
      var rest := LiveFrom(t, channel, i + 1);
      assert (channel, i) !in rest;
    }
  }

  lemma {:induction false} NotifiedElems(t: Table, patterns: seq<string>, n: Notification)
    ensures n in Notified(t, patterns) <==> n.0 in patterns && LiveAt(t, n.0, n.1)
  {
    if patterns != [] {
      NotifiedElems(t, patterns[1..], n);
      LiveFromElems(t, patterns[0], 0);
    }
  }

  lemma {:induction false} NotifiedOnce(t: Table, patterns: seq<string>)
    requires NoRepeats(patterns)
    ensures NoRepeats(Notified(t, patterns))
  {
    if patterns != [] {
      var rest := patterns[1..];
      NotifiedOnce(t, rest);
      LiveFromElems(t, patterns[0], 0);
      var a: seq<Notification>, b: seq<Notification> := LiveFrom(t, patterns[0], 0), Notified(t, rest);
      forall i, j | 0 <= i < |a| && 0 <= j < |b| ensures a[i] != b[j] {
        NotifiedElems(t, rest, b[j]);
        assert a[i] in a && b[j] in b;
      }
    }
  }

  /** A message reaches each live listener whose pattern matches its channel and no other, and unless the channel
      ends in a wildcard it reaches each of them exactly once. */
  lemma NotifiesMatchingListenersOnce(t: Table, channel: string)
    ensures forall n: Notification :: n in Notified(t, Patterns(channel)) <==>
              Matches(n.0, channel) && LiveAt(t, n.0, n.1)
    ensures !EndsInWildcard(channel) ==> NoRepeats(Notified(t, Patterns(channel)))
  {
    forall n: Notification
      ensures n in Notified(t, Patterns(channel)) <==> Matches(n.0, channel) && LiveAt(t, n.0, n.1)
    {
      NotifiedElems(t, Patterns(channel), n);
      PatternsMatch(channel, n.0);
    }
    PatternsDistinctExactlyWhen(channel);
    if !EndsInWildcard(channel) {
      NotifiedOnce(t, Patterns(channel));
    }
  }

  /** On a channel that ends in a wildcard, a live listener on that very channel is notified more than once. */
  lemma WildcardChannelRepeats(t: Table, channel: string, id: nat)
    requires EndsInWildcard(channel) && LiveAt(t, channel, id)
    ensures !NoRepeats(Notified(t, Patterns(channel)))
  {
    var parts := Split(channel, '/');
    var globs := Globs(parts, |parts| - 1);
    GlobsAre(parts, |parts| - 1, channel);
    var n := (channel, id);
    LiveFromElems(t, channel, 0);
    NotifiedElems(t, globs, n);
    var a: seq<Notification>, b: seq<Notification> := LiveFrom(t, channel, 0), Notified(t, globs);
    assert Patterns(channel)[1..] == globs;
    assert Notified(t, Patterns(channel)) == a + b;
    assert n in a && n in b;
    SharedRepeats(a, b, n);
  }

  lemma SharedRepeats(a: seq<Notification>, b: seq<Notification>, n: Notification)
    requires n in a && n in b
    ensures !NoRepeats(a + b)
  {
    var i :| 0 <= i < |a| && a[i] == n;
    var j :| 0 <= j < |b| && b[j] == n;
    var all := a + b;
    assert all[i] == all[|a| + j];
  }

  // ------------------------------------------------------------------------- order of notifications

  /** The channel itself comes first, then its one-segment glob, then the recursive ones, the longest first. */
  function Priority(channel: string, pattern: string): int {
    var p, parts := Split(pattern, '/'), Split(channel, '/');
    if pattern == channel then 0 else if p[|p| - 1] == "*" then 1 else 2 + |parts| - |p|
  }

  predicate Rising(channel: string, patterns: seq<string>) {
    forall a, b | 0 <= a < b < |patterns| :: Priority(channel, patterns[a]) < Priority(channel, patterns[b])
  }

  lemma GlobPriority(channel: string, i: nat)
    requires 0 < i < |Split(channel, '/')| && !EndsInWildcard(channel)
    ensures var parts := Split(channel, '/');
            var glob := Join(parts[..i], '/') + "/*";
            && (i == |parts| - 1 ==> Priority(channel, glob) == 1)
            && Priority(channel, glob + "*") == 2 + |parts| - (i + 1)
  {
    GlobIsJoin(Split(channel, '/'), i);
  }

  lemma {:induction false} GlobsRise(channel: string, i: nat)
    requires i < |Split(channel, '/')| && !EndsInWildcard(channel)
    ensures var parts := Split(channel, '/');
            && Rising(channel, Globs(parts, i))
            && forall k | k in Globs(parts, i) ::
                 Priority(channel, k) >= if i == |parts| - 1 then 1 else 2 + |parts| - (i + 1)
  {
    if i > 0 {
      GlobsRise(channel, i - 1);
      GlobPriority(channel, i);
    }
  }

  lemma {:induction false} LiveFromRises(t: Table, channel: string, i: nat)
    requires i <= |SlotsOf(t, channel)|
    ensures forall n | n in LiveFrom(t, channel, i) :: n.0 == channel && n.1 >= i
    ensures forall a, b | 0 <= a < b < |LiveFrom(t, channel, i)| ::
              LiveFrom(t, channel, i)[a].1 < LiveFrom(t, channel, i)[b].1
    decreases |SlotsOf(t, channel)| - i
  {
    if i < |SlotsOf(t, channel)| {
      LiveFromRises(t, channel, i + 1);
    }
  }

  predicate Earlier(channel: string, m: Notification, n: Notification) {
    Priority(channel, m.0) < Priority(channel, n.0) || (m.0 == n.0 && m.1 < n.1)
  }

  lemma {:induction false} NotifiedRises(t: Table, channel: string, patterns: seq<string>)
    requires Rising(channel, patterns)
    ensures forall n | n in Notified(t, patterns) :: n.0 in patterns
    ensures forall a, b | 0 <= a < b < |Notified(t, patterns)| ::
              Earlier(channel, Notified(t, patterns)[a], Notified(t, patterns)[b])
  {
    if patterns != [] {
      LiveFromRises(t, patterns[0], 0);
      NotifiedRises(t, channel, patterns[1..]);
      var first, rest := LiveFrom(t, patterns[0], 0), Notified(t, patterns[1..]);
      forall m, n | m in first && n in rest ensures Earlier(channel, m, n) {
        var k :| 0 <= k < |patterns[1..]| && patterns[1..][k] == n.0;
        assert patterns[k + 1] == n.0;
      }
    }
  }

  /** Listeners are notified in order: those of the channel itself, of its one-segment glob, of its recursive globs from
      the most to the least specific; and those of one pattern in the order they were added. */
  lemma NotifiedInOrder(t: Table, channel: string)
    requires !EndsInWildcard(channel)
    ensures var all := Notified(t, Patterns(channel));
            forall a, b | 0 <= a < b < |all| :: Earlier(channel, all[a], all[b])
  {
    var parts := Split(channel, '/');
    GlobsRise(channel, |parts| - 1);
    NotifiedRises(t, channel, Patterns(channel));
  }

  // ------------------------------------------------------------------ subscribing and unsubscribing

  datatype Action = ToSubscribe | ToUnsubscribe

  /** The table and the subscribe and unsubscribe messages queued so far, with their channels. */
  datatype State = State(table: Table, messages: seq<(Action, string)>)

  predicate HasSubscriptions(t: Table, channel: string) {
    exists id: nat :: id < |SlotsOf(t, channel)| && LiveAt(t, channel, id)
  }

  function AddEntry(t: Table, channel: string, e: Entry): Table {
    t[channel := SlotsOf(t, channel) + [Some(e)]]
  }

  function RemoveEntry(t: Table, channel: string, id: nat): Table {
    if LiveAt(t, channel, id) then t[channel := SlotsOf(t, channel)[id := None]] else t
  }

  function SubscribeTo(s: State, channel: string): State {
    State(AddEntry(s.table, channel, Entry(false)),
          if HasSubscriptions(s.table, channel) then s.messages else s.messages + [(ToSubscribe, channel)])
  }

  function UnsubscribeFrom(s: State, channel: string, id: nat): State {
    var t := RemoveEntry(s.table, channel, id);
    State(t, if HasSubscriptions(t, channel) then s.messages else s.messages + [(ToUnsubscribe, channel)])
  }

  datatype Event =
    | Subscribes(channel: string)
    | Unsubscribes(channel: string, id: nat)
    | AddsListener(channel: string)

  function Next(s: State, e: Event): State {
    match e
    case Subscribes(channel) => SubscribeTo(s, channel)
    case Unsubscribes(channel, id) => UnsubscribeFrom(s, channel, id)
    case AddsListener(channel) => s.(table := AddEntry(s.table, channel, Entry(true)))
  }

  /** The messages about one channel. */
  function About(messages: seq<(Action, string)>, channel: string): seq<Action> {
    if messages == [] then []
    else
      var n := |messages| - 1;
      About(messages[..n], channel) + if messages[n].1 == channel then [messages[n].0] else []
  }

  /** subscribe and unsubscribe alternate, starting with subscribe. */
  predicate Alternates(actions: seq<Action>) {
    forall i | 0 <= i < |actions| :: actions[i] == if i % 2 == 0 then ToSubscribe else ToUnsubscribe
  }

  /** The server's last word on the channel is a subscription exactly if some local subscription is live. */
  ghost predicate InStep(s: State, channel: string) {
    var actions := About(s.messages, channel);
    Alternates(actions) && (HasSubscriptions(s.table, channel) <==> |actions| % 2 == 1)
  }

  lemma AddedIsLive(t: Table, channel: string, e: Entry)
    ensures HasSubscriptions(AddEntry(t, channel, e), channel)
  {
    assert LiveAt(AddEntry(t, channel, e), channel, |SlotsOf(t, channel)|);
  }

  /** Subscribing and adding a listener append a live entry and leave all others; releasing a handle removes just its
      entry. A message goes out exactly for the first entry of a channel, and when a release leaves none. */
  lemma EventsChangeOneEntry(s: State, e: Event)
    ensures var t := Next(s, e);
            var added := |SlotsOf(s.table, e.channel)|;
            && (forall channel: string, id: nat :: LiveAt(t.table, channel, id) <==>
                  if e.Unsubscribes? then LiveAt(s.table, channel, id) && !(channel == e.channel && id == e.id)
                  else LiveAt(s.table, channel, id) || (channel == e.channel && id == added))
            && (forall channel: string, id: nat | LiveAt(s.table, channel, id) && LiveAt(t.table, channel, id) ::
                  SlotsOf(t.table, channel)[id] == SlotsOf(s.table, channel)[id])
            && (!e.Unsubscribes? ==> SlotsOf(t.table, e.channel)[added] == Some(Entry(e.AddsListener?)))
            && t.messages == s.messages +
                 match e
                 case Subscribes(channel) =>
                   if forall id: nat :: !LiveAt(s.table, channel, id) then [(ToSubscribe, channel)] else []
                 case Unsubscribes(channel, released) =>
                   if forall id: nat | id != released :: !LiveAt(s.table, channel, id) then [(ToUnsubscribe, channel)]
                   else []
                 case AddsListener(_) => []
  {
    var t := Next(s, e);
    forall channel: string, id: nat
      ensures LiveAt(t.table, channel, id) <==>
                if e.Unsubscribes? then LiveAt(s.table, channel, id) && !(channel == e.channel && id == e.id)
                else LiveAt(s.table, channel, id) || (channel == e.channel && id == |SlotsOf(s.table, e.channel)|)
    {
    }
  }

  lemma OtherChannel(s: State, e: Event, channel: string)
    requires e.channel != channel
    ensures SlotsOf(Next(s, e).table, channel) == SlotsOf(s.table, channel)
    ensures HasSubscriptions(Next(s, e).table, channel) == HasSubscriptions(s.table, channel)
    ensures About(Next(s, e).messages, channel) == About(s.messages, channel)
  {
    var t := Next(s, e).table;
    assert forall id: nat :: LiveAt(t, channel, id) == LiveAt(s.table, channel, id);
  }

  /** Each handle is released once, and the channel has no listeners besides subscriptions. */
  predicate Proper(s: State, e: Event, channel: string) {
    e.channel == channel ==> !e.AddsListener? && (e.Unsubscribes? ==> LiveAt(s.table, channel, e.id))
  }

  lemma AboutSnoc(messages: seq<(Action, string)>, action: Action, channel: string)
    ensures About(messages + [(action, channel)], channel) == About(messages, channel) + [action]
  {
    assert (messages + [(action, channel)])[..|messages|] == messages;
  }

  lemma AlternatesSnoc(actions: seq<Action>, action: Action)
    requires Alternates(actions) && action == if |actions| % 2 == 0 then ToSubscribe else ToUnsubscribe
    ensures Alternates(actions + [action])
  {
  }

  lemma SubscribeInStep(s: State, channel: string)
    requires InStep(s, channel)
    ensures InStep(SubscribeTo(s, channel), channel)
  {
    AddedIsLive(s.table, channel, Entry(false));
    if !HasSubscriptions(s.table, channel) {
      AboutSnoc(s.messages, ToSubscribe, channel);
      AlternatesSnoc(About(s.messages, channel), ToSubscribe);
    }
  }

  lemma UnsubscribeInStep(s: State, channel: string, id: nat)
    requires InStep(s, channel) && LiveAt(s.table, channel, id)
    ensures InStep(UnsubscribeFrom(s, channel, id), channel)
  {
    assert HasSubscriptions(s.table, channel);
    AboutSnoc(s.messages, ToUnsubscribe, channel);
    AlternatesSnoc(About(s.messages, channel), ToUnsubscribe);
  }

  lemma StepInStep(s: State, e: Event, channel: string)
    requires InStep(s, channel) && Proper(s, e, channel)
    ensures InStep(Next(s, e), channel)
  {
    if e.channel != channel {
      OtherChannel(s, e, channel);
    } else if e.Subscribes? {
      SubscribeInStep(s, channel);
    } else {
      UnsubscribeInStep(s, channel, e.id);
    }
  }

  /** Releasing a handle again keeps the alternation exactly if a live subscription remains. */
  lemma ReleasedTwiceExactlyWhen(s: State, channel: string, id: nat)
    requires InStep(s, channel) && !LiveAt(s.table, channel, id)
    ensures InStep(UnsubscribeFrom(s, channel, id), channel) <==> HasSubscriptions(s.table, channel)
  {
    var before, after := About(s.messages, channel), About(UnsubscribeFrom(s, channel, id).messages, channel);
    if !HasSubscriptions(s.table, channel) {
      assert after[|before|] == ToUnsubscribe;
    }
  }

  /** A handle keeps naming its subscription until it is released, whatever holes others leave. */
  lemma HandlesStayValid(s: State, e: Event, channel: string, id: nat)
    requires LiveAt(s.table, channel, id)
    ensures e != Unsubscribes(channel, id) ==>
              LiveAt(Next(s, e).table, channel, id) &&
              SlotsOf(Next(s, e).table, channel)[id] == SlotsOf(s.table, channel)[id]
  {
  }

  ghost predicate IsRun(states: seq<State>, events: seq<Event>) {
    && |states| == |events| + 1
    && states[0] == State(map[], [])
    && forall i | 0 <= i < |events| :: states[i + 1] == Next(states[i], events[i])
  }

  /** In every run that uses the channel only through subscribe and unsubscribe, releasing each handle once, the
      messages about it alternate, and the last is a subscribe exactly if a local subscription is live. */
  lemma {:induction false} MessagesAlternate(states: seq<State>, events: seq<Event>, i: nat, channel: string)
    requires IsRun(states, events) && i <= |events|
    requires forall j | 0 <= j < i :: Proper(states[j], events[j], channel)
    ensures InStep(states[i], channel)
  {
    if i > 0 {
      MessagesAlternate(states, events, i - 1, channel);
      assert states[i - 1 + 1] == Next(states[i - 1], events[i - 1]);
      StepInStep(states[i - 1], events[i - 1], channel);
    }
  }

  // ------------------------------------------------------------------------------ the object

  class ListenerTable {
    var listeners: Table
    ghost var notified: seq<Notification>
    ghost var messages: seq<(Action, string)>

    constructor ()
      ensures View() == State(map[], []) && notified == []
    {
      listeners, notified, messages := map[], [], [];
    }

    ghost function View(): State
      reads this
    {
      State(listeners, messages)
    }

    /** Calls the live listeners stored under the channel; removed ones have left holes. */
    method Notify(channel: string)
      modifies this`notified
      ensures notified == old(notified) + LiveFrom(listeners, channel, 0)
    {
      if channel in listeners {
        var subscriptions := listeners[channel];
        for i := 0 to |subscriptions|
          invariant notified + LiveFrom(listeners, channel, i) == old(notified) + LiveFrom(listeners, channel, 0)
        {
          if subscriptions[i].Some? {
            notified := notified + [(channel, i)];
          }
        }
      }
    }

    method NotifyListeners(channel: string)
      modifies this`notified
      ensures notified == old(notified) + Notified(listeners, Patterns(channel))
    {
      Notify(channel);
      var channelParts := Split(channel, '/');
      NotifiedCons(listeners, channel, Globs(channelParts, |channelParts| - 1));
      NotifyGlobs(channelParts);
    }

    /** The loop over the prefixes of the channel, longest first. */
    method NotifyGlobs(channelParts: seq<string>)
      requires channelParts != []
      modifies this`notified
      ensures notified == old(notified) + Notified(listeners, Globs(channelParts, |channelParts| - 1))
    {
      var last := |channelParts| - 1;
      var i := last;
      while i > 0
        invariant 0 <= i <= last
        invariant notified + Notified(listeners, Globs(channelParts, i))
               == old(notified) + Notified(listeners, Globs(channelParts, last))
      {
        GlobStep(listeners, channelParts, i);
        ghost var before := notified;
        NotifyPrefix(channelParts, i);
        Regrouped(before, notified[|before|..], Notified(listeners, Globs(channelParts, i - 1)));
        i := i - 1;
      }
    }

    /** One round: the one-segment glob for the longest prefix only, and the recursive glob. */
    method NotifyPrefix(channelParts: seq<string>, i: nat)
      requires 0 < i < |channelParts|
      modifies this`notified
      ensures var glob := Join(channelParts[..i], '/') + "/*";
              notified == old(notified) +
                ((if i == |channelParts| - 1 then LiveFrom(listeners, glob, 0) else [])
                 + LiveFrom(listeners, glob + "*", 0))
    {
      var channelPart := Join(channelParts[..i], '/') + "/*";
      ghost var first := if i == |channelParts| - 1 then LiveFrom(listeners, channelPart, 0) else [];
      if i == |channelParts| - 1 {
        Notify(channelPart);
      }
      assert notified == old(notified) + first;
      channelPart := channelPart + "*";
      Notify(channelPart);
      Regrouped(old(notified), first, LiveFrom(listeners, channelPart, 0));
    }

    method AddListener(channel: string, isListener: bool) returns (id: nat)
      modifies this`listeners
      ensures listeners == AddEntry(old(listeners), channel, Entry(isListener))
      ensures id == |SlotsOf(old(listeners), channel)| && LiveAt(listeners, channel, id)
    {
      if channel !in listeners {
        listeners := listeners[channel := []];
      }
      id := |listeners[channel]|;
      listeners := listeners[channel := listeners[channel] + [Some(Entry(isListener))]];
    }

    method RemoveListener(channel: string, id: nat)
      modifies this`listeners
      ensures listeners == RemoveEntry(old(listeners), channel, id)
    {
      if channel in listeners && id < |listeners[channel]| && listeners[channel][id].Some? {
        listeners := listeners[channel := listeners[channel][id := None]];
      }
    }

    method FindSubscriptions(channel: string) returns (found: bool)
      ensures found <==> HasSubscriptions(listeners, channel)
    {
      if channel in listeners {
        var subscriptions := listeners[channel];
        for i := 0 to |subscriptions|
          invariant forall id: nat | id < i :: !LiveAt(listeners, channel, id)
        {
          if subscriptions[i].Some? {
            assert LiveAt(listeners, channel, i);
            return true;
          }
        }
      }
      return false;
    }

    method Subscribe(channel: string) returns (id: nat)
      modifies this`listeners, this`messages
      ensures View() == SubscribeTo(old(View()), channel)
      ensures id == |SlotsOf(old(listeners), channel)|
    {
      var known := FindSubscriptions(channel);
      id := AddListener(channel, false);
      if !known {
        messages := messages + [(ToSubscribe, channel)];
      }
    }

    method Unsubscribe(channel: string, id: nat)
      modifies this`listeners, this`messages
      ensures View() == UnsubscribeFrom(old(View()), channel, id)
    {
      RemoveListener(channel, id);
      var remains := FindSubscriptions(channel);
      if !remains {
        messages := messages + [(ToUnsubscribe, channel)];
      }
    }
  }

  /** One round of the loop: the single-segment glob on the first round only, then the recursive one. */
  lemma Regrouped(a: seq<Notification>, b: seq<Notification>, c: seq<Notification>)
    ensures a + (b + c) == (a + b) + c
  {
  }

  lemma GlobStep(t: Table, parts: seq<string>, i: nat)
    requires 0 < i < |parts|
    ensures var glob := Join(parts[..i], '/') + "/*";
            Notified(t, Globs(parts, i)) ==
              ((if i == |parts| - 1 then LiveFrom(t, glob, 0) else []) + LiveFrom(t, glob + "*", 0))
              + Notified(t, Globs(parts, i - 1))
  {
    var glob := Join(parts[..i], '/') + "/*";
    var rest := Globs(parts, i - 1);
    NotifiedCons(t, glob + "*", rest);
    if i == |parts| - 1 {
      NotifiedCons(t, glob, [glob + "*"] + rest);
      assert Globs(parts, i) == [glob] + [glob + "*"] + rest == [glob] + ([glob + "*"] + rest);
      assert Notified(t, Globs(parts, i)) ==
             LiveFrom(t, glob, 0) + (LiveFrom(t, glob + "*", 0) + Notified(t, rest));
      Regrouped(LiveFrom(t, glob, 0), LiveFrom(t, glob + "*", 0), Notified(t, rest));
    } else {
      assert Globs(parts, i) == [] + [glob + "*"] + rest == [glob + "*"] + rest;
    }
  }

  lemma NotifiedCons(t: Table, p: string, patterns: seq<string>)
    ensures Notified(t, [p] + patterns) == LiveFrom(t, p, 0) + Notified(t, patterns)
  {
    assert ([p] + patterns)[1..] == patterns;
  }
}
