/** The callback table, the remote calls and their timeouts. */
module Callbacks {
  import opened Utils

  /** A remote call in progress; `timed` when a timeout was scheduled, `notifies` when it has a callback. */
  datatype RemoteCall = RemoteCall(notifies: bool, timed: bool)

  /** `timers` are the scheduled timeouts. `fired` records the callbacks called and `awaited` the remote calls made
      with a callback, by message id. */
  datatype Table = Table(
    messageId: nat,
    callbacks: set<nat>,
    remoteCalls: map<nat, RemoteCall>,
    timers: set<nat>,
    fired: seq<nat>,
    awaited: set<nat>)

  const EMPTY := Table(0, {}, map[], {}, [], {})

  /** A fresh id, and the callback stored under it when there is one. */
  function Register(t: Table, hasCallback: bool): Table {
    var id := t.messageId + 1;
    t.(messageId := id, callbacks := if hasCallback then t.callbacks + {id} else t.callbacks)
  }

  function RegisterRemote(t: Table, notifies: bool, timed: bool): Table {
    var id := t.messageId + 1;
    t.(messageId := id,
       remoteCalls := t.remoteCalls[id := RemoteCall(notifies, timed)],
       timers := if timed then t.timers + {id} else t.timers,
       awaited := if notifies then t.awaited + {id} else t.awaited)
  }

  /** An outgoing extension has dropped the message. */
  function Forget(t: Table, id: nat): Table {
    t.(callbacks := t.callbacks - {id})
  }

  function HandleCallback(t: Table, id: nat): Table {
    if id in t.callbacks then t.(callbacks := t.callbacks - {id}, fired := t.fired + [id]) else t
  }

  predicate HandlesRemoteCall(t: Table, id: nat) {
    id in t.remoteCalls && t.remoteCalls[id].notifies
  }

  function HandleRemoteCall(t: Table, id: nat): Table {
    if id in t.remoteCalls then
      t.(remoteCalls := t.remoteCalls - {id},
         timers := t.timers - {id},
         fired := if t.remoteCalls[id].notifies then t.fired + [id] else t.fired)
    else t
  }

  function FailMessage(t: Table, id: nat): Table {
    if HandlesRemoteCall(t, id) then HandleRemoteCall(t, id) else HandleCallback(HandleRemoteCall(t, id), id)
  }

  function TimeOut(t: Table, id: nat): Table {
    FailMessage(t.(timers := t.timers - {id}), id)
  }

  /** Everything that can happen to the table: the reports carry any id, any number of times. */
  datatype Event =
    | Registered(hasCallback: bool)
    | RemoteRegistered(notifies: bool, timed: bool)
    | Dropped(id: nat)
    | Acknowledged(id: nat)
    | RemoteReplied(id: nat)
    | MessageFailed(id: nat)
    | TimerFired(id: nat)

  predicate Enabled(t: Table, e: Event) {
    e.TimerFired? ==> e.id in t.timers
  }

  function Next(t: Table, e: Event): Table {
    match e
    case Registered(hasCallback) => Register(t, hasCallback)
    case RemoteRegistered(notifies, timed) => RegisterRemote(t, notifies, timed)
    case Dropped(id) => Forget(t, id)
    case Acknowledged(id) => HandleCallback(t, id)
    case RemoteReplied(id) => HandleRemoteCall(t, id)
    case MessageFailed(id) => FailMessage(t, id)
    case TimerFired(id) => TimeOut(t, id)
  }

  /** No id is both waiting and fired, or waiting twice; an awaited call is either waiting or has fired;
      a timed call is waiting exactly while its timer is. */
  ghost predicate Consistent(t: Table) {
    && NoRepeats(t.fired)
    && (forall id | id in t.fired :: id <= t.messageId && id !in t.callbacks && id !in t.remoteCalls)
    && (forall id | id in t.callbacks :: id <= t.messageId && id !in t.remoteCalls && id !in t.awaited)
    && (forall id | id in t.remoteCalls :: id <= t.messageId && (t.remoteCalls[id].timed <==> id in t.timers))
    && (forall id | id in t.timers :: id in t.remoteCalls)
    && (forall id | id in t.awaited :: id <= t.messageId && (id in t.remoteCalls <==> id !in t.fired))
    && (forall id | id in t.remoteCalls :: t.remoteCalls[id].notifies <==> id in t.awaited)
  }

  ghost predicate FiresMore(t: Table, u: Table) {
    forall id | id in t.fired :: id in u.fired
  }

  lemma NextConsistent(t: Table, e: Event)
    requires Consistent(t) && Enabled(t, e)
    ensures Consistent(Next(t, e)) && FiresMore(t, Next(t, e))
  {
  }

  ghost predicate IsRun(tables: seq<Table>, events: seq<Event>) {
    && |tables| == |events| + 1
    && tables[0] == EMPTY
    && forall i | 0 <= i < |events| :: Enabled(tables[i], events[i]) && tables[i + 1] == Next(tables[i], events[i])
  }

  lemma {:induction false} RunConsistent(tables: seq<Table>, events: seq<Event>, i: nat)
    requires IsRun(tables, events) && i <= |events|
    ensures Consistent(tables[i])
  {
    if i > 0 {
      RunConsistent(tables, events, i - 1);
      assert tables[i - 1 + 1] == Next(tables[i - 1], events[i - 1]);
      NextConsistent(tables[i - 1], events[i - 1]);
    }
  }

  /** In every run, each callback fires at most once, however often its message is reported. */
  lemma CallbacksFireAtMostOnce(tables: seq<Table>, events: seq<Event>, i: nat, id: nat)
    requires IsRun(tables, events) && i <= |events|
    ensures multiset(tables[i].fired)[id] <= 1
  {
    RunConsistent(tables, events, i);
    NoRepeatsCount(tables[i].fired, id);
  }

  lemma {:induction false} NoRepeatsCount(xs: seq<nat>, id: nat)
    requires NoRepeats(xs)
    ensures multiset(xs)[id] <= 1
    ensures multiset(xs)[id] == 1 <==> id in xs
  {
    if xs != [] {
      assert xs == [xs[0]] + xs[1..];
      assert multiset(xs) == multiset{xs[0]} + multiset(xs[1..]);
      NoRepeatsCount(xs[1..], id);
      assert xs[0] !in xs[1..];
    }
  }

  /** Once its reply, its failure or its timeout has been handled, a remote call has called back exactly once,
      and stays so for the rest of the run. */
  lemma {:induction false} RemoteCallFiresOnce(tables: seq<Table>, events: seq<Event>, i: nat, j: nat, id: nat)
    requires IsRun(tables, events) && i < j <= |events|
    requires id in tables[i].awaited
    requires events[i] == RemoteReplied(id) || events[i] == MessageFailed(id) || events[i] == TimerFired(id)
    ensures multiset(tables[j].fired)[id] == 1
  {
    RunConsistent(tables, events, j);
    RunConsistent(tables, events, i);
    NoRepeatsCount(tables[j].fired, id);
    assert tables[i + 1] == Next(tables[i], events[i]);
    FiredStays(tables, events, i + 1, j, id);
  }

  lemma {:induction false} FiredStays(tables: seq<Table>, events: seq<Event>, i: nat, j: nat, id: nat)
    requires IsRun(tables, events) && i <= j <= |events| && id in tables[i].fired
    ensures id in tables[j].fired
  {
    if i < j {
      FiredStays(tables, events, i, j - 1, id);
      assert tables[j - 1 + 1] == Next(tables[j - 1], events[j - 1]);
    }
  }

  /** A timed remote call that has not called back can still time out, and then does. */
  lemma TimedCallsCanTimeOut(t: Table, id: nat)
    requires Consistent(t) && id in t.remoteCalls && t.remoteCalls[id].timed && id in t.awaited
    ensures Enabled(t, TimerFired(id))
    ensures var t' := Next(t, TimerFired(id)); t'.fired == t.fired + [id] && id !in t'.remoteCalls
  {
  }
}
