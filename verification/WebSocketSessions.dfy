/** The WebSocket transport as a state machine: the envelopes and timeouts of every socket it has opened. */
module WebSocketSessions {
  import opened Wrappers
  import opened Strings
  import opened Utils

  /** An envelope, told apart by a number, with the ids of its messages. */
  datatype Envelope = Envelope(number: nat, ids: seq<string>)

  datatype Stored = Stored(envelope: Envelope, metaConnect: bool)

  /** The envelopes waiting for answers, under the joined ids that are still unanswered, and the ids with a timeout. */
  datatype Context = Context(envelopes: map<string, Stored>, timeouts: set<string>)

  const NEW_CONTEXT := Context(map[], {})

  // --------------------------------------------------------------------- what a context holds

  predicate ProperIds(ids: seq<string>) {
    && ids != []
    && (forall id | id in ids :: id != "" && ',' !in id)
    && NoRepeats(ids)
  }

  /** Messages without an id are skipped. */
  function Identified(ids: seq<string>): seq<string> {
    if ids == [] then []
    else
      var n := |ids| - 1;
      Identified(ids[..n]) + if ids[n] == "" then [] else [ids[n]]
  }

  lemma {:induction false} IdentifiedProper(ids: seq<string>)
    requires forall id | id in ids :: id != ""
    ensures Identified(ids) == ids
  {
    if ids != [] {
      var init, last := ids[..|ids| - 1], ids[|ids| - 1];
      assert ids == init + [last] && last in ids;
      assert forall id :: id in init ==> id in ids;
      IdentifiedProper(init);
    }
  }

  predicate Holds(x: Context, k: string, id: string) {
    k in x.envelopes && id in Split(k, ',')
  }

  /** The message is unanswered and belongs to that envelope. */
  ghost predicate Owns(x: Context, id: string, v: Stored) {
    exists k :: Holds(x, k, id) && x.envelopes[k] == v
  }

  predicate Unanswered(x: Context, id: string) {
    exists k :: k in x.envelopes && Holds(x, k, id)
  }

  /** The keys are proper, no id is under two of them, and neither is an envelope. */
  ghost predicate Partitioned(x: Context) {
    && (forall k | k in x.envelopes :: ProperIds(Split(k, ',')))
    && (forall k, l, id | Holds(x, k, id) && Holds(x, l, id) :: k == l)
    && (forall k, l | k in x.envelopes && l in x.envelopes ::
          x.envelopes[k].envelope.number == x.envelopes[l].envelope.number ==> k == l)
  }

  ghost predicate Armed(x: Context) {
    forall id :: id in x.timeouts <==> Unanswered(x, id)
  }

  function Numbers(x: Context): set<nat> {
    set k | k in x.envelopes :: x.envelopes[k].envelope.number
  }

  // -------------------------------------------------------------------------- one context

  function Store(x: Context, v: Stored): Context {
    x.(envelopes := x.envelopes[Join(v.envelope.ids, ',') := v])
  }

  function Arm(x: Context, e: Envelope): Context {
    x.(timeouts := x.timeouts + Elems(e.ids))
  }

  function ArmAll(x: Context): Context {
    x.(timeouts := x.timeouts + set k, id | k in x.envelopes && id in x.envelopes[k].envelope.ids :: id)
  }

  /** The id leaves the key k; the envelope stays under the ids that remain, if any. */
  function AnswerUnder(x: Context, k: string, id: string): Context
    requires Holds(x, k, id)
  {
    var rest := Remove(Split(k, ','), id);
    var others := x.envelopes - {k};
    x.(envelopes := if rest == [] then others else others[Join(rest, ',') := x.envelopes[k]])
  }

  ghost function Answer(x: Context, id: string): Context {
    if k :| Holds(x, k, id) then AnswerUnder(x, k, id) else x
  }

  ghost function AnswerAll(x: Context, ids: seq<string>): Context
    decreases |ids|
  {
    if ids == [] then x else AnswerAll(Answer(x, ids[0]), ids[1..])
  }

  /** A batch of replies: all timeouts first, then the envelopes. */
  ghost function Reply(x: Context, ids: seq<string>): Context {
    AnswerAll(x.(timeouts := x.timeouts - Elems(ids)), ids)
  }

  // ------------------------------------------------------------------------ facts on one context

  lemma ProperSplit(ids: seq<string>)
    requires ProperIds(ids)
    ensures Split(Join(ids, ','), ',') == ids
  {
    SplitJoin(ids, ',');
  }

  /** The key under which the answered id's envelope stands afterwards. */
  function NewKey(k: string, id: string): string {
    Join(Remove(Split(k, ','), id), ',')
  }

  lemma AnswerKeys(x: Context, k: string, id: string)
    requires Partitioned(x) && Holds(x, k, id)
    ensures var y, rest, key := AnswerUnder(x, k, id), Remove(Split(k, ','), id), NewKey(k, id);
            && (rest != [] ==> Split(key, ',') == rest && ProperIds(rest) && (key in x.envelopes ==> key == k))
            && (forall l :: l in y.envelopes <==> (rest != [] && l == key) || (l in x.envelopes && l != k))
            && (forall l | l in y.envelopes ::
                  y.envelopes[l] == if rest != [] && l == key then x.envelopes[k] else x.envelopes[l])
  {
    var ids := Split(k, ',');
    var rest := Remove(ids, id);
    assert ProperIds(ids);
    RemoveDistinct(ids, id);
    if rest != [] {
      assert ProperIds(rest);
      ProperSplit(rest);
      if NewKey(k, id) in x.envelopes {
        assert rest[0] in rest;
        assert Holds(x, NewKey(k, id), rest[0]) && Holds(x, k, rest[0]);
      }
    }
  }

  lemma AnswerHolds(x: Context, k: string, id: string, l: string, i: string)
    requires Partitioned(x) && Holds(x, k, id)
    ensures Holds(AnswerUnder(x, k, id), l, i) <==>
              if Remove(Split(k, ','), id) != [] && l == NewKey(k, id) then Holds(x, k, i) && i != id
              else Holds(x, l, i) && l != k
  {
    AnswerKeys(x, k, id);
    assert ProperIds(Split(k, ','));
    RemoveDistinct(Split(k, ','), id);
  }

  lemma AnswerPartitioned(x: Context, k: string, id: string)
    requires Partitioned(x) && Holds(x, k, id)
    ensures Partitioned(AnswerUnder(x, k, id))
  {
    var y := AnswerUnder(x, k, id);
    AnswerKeys(x, k, id);
    forall l, m, i | Holds(y, l, i) && Holds(y, m, i) ensures l == m {
      AnswerHolds(x, k, id, l, i);
      AnswerHolds(x, k, id, m, i);
    }
  }

  /** Answering an id removes exactly that id, and keeps every other with its envelope. */
  lemma AnswerRemovesOne(x: Context, k: string, id: string, i: string, v: Stored)
    requires Partitioned(x) && Holds(x, k, id)
    ensures Owns(AnswerUnder(x, k, id), i, v) <==> Owns(x, i, v) && i != id
  {
    var y := AnswerUnder(x, k, id);
    AnswerKeys(x, k, id);
    if Owns(y, i, v) {
      var l :| Holds(y, l, i) && y.envelopes[l] == v;
      AnswerHolds(x, k, id, l, i);
      assert (Holds(x, l, i) && x.envelopes[l] == v) || (Holds(x, k, i) && x.envelopes[k] == v);
    }
    if Owns(x, i, v) && i != id {
      var l :| Holds(x, l, i) && x.envelopes[l] == v;
      RemoveDistinct(Split(k, ','), id);
      var m := if l == k then NewKey(k, id) else l;
      AnswerHolds(x, k, id, m, i);
      assert Holds(y, m, i) && y.envelopes[m] == v;
    }
  }

  lemma AnswerOne(x: Context, id: string, i: string, v: Stored)
    requires Partitioned(x)
    ensures Partitioned(Answer(x, id))
    ensures Owns(Answer(x, id), i, v) <==> Owns(x, i, v) && i != id
  {
    if k :| Holds(x, k, id) {
      AnswerUnique(x, k, id);
      AnswerPartitioned(x, k, id);
      AnswerRemovesOne(x, k, id, i, v);
    }
  }

  /** At most one key holds the id, so it does not matter in which order the keys are searched. */
  lemma AnswerUnique(x: Context, k: string, id: string)
    requires Partitioned(x) && Holds(x, k, id)
    ensures Answer(x, id) == AnswerUnder(x, k, id)
  {
  }

  /** A batch of replies removes exactly the replied ids. */
  lemma {:induction false} AnswerAllRemoves(x: Context, ids: seq<string>, i: string, v: Stored)
    requires Partitioned(x)
    ensures Partitioned(AnswerAll(x, ids))
    ensures Owns(AnswerAll(x, ids), i, v) <==> Owns(x, i, v) && i !in ids
    ensures AnswerAll(x, ids).timeouts == x.timeouts
    decreases |ids|
  {
    if ids != [] {
      AnswerOne(x, ids[0], i, v);
      AnswerAllRemoves(Answer(x, ids[0]), ids[1..], i, v);
    }
  }

  lemma UnansweredOwned(x: Context, id: string)
    ensures Unanswered(x, id) <==> exists v :: Owns(x, id, v)
  {
    if k :| k in x.envelopes && Holds(x, k, id) {
      assert Owns(x, id, x.envelopes[k]);
    }
  }

  lemma NumbersOwned(x: Context, n: nat)
    requires Partitioned(x)
    ensures n in Numbers(x) <==> exists id, v :: Owns(x, id, v) && v.envelope.number == n
  {
    if n in Numbers(x) {
      var k :| k in x.envelopes && x.envelopes[k].envelope.number == n;
      assert ProperIds(Split(k, ','));
      assert Holds(x, k, Split(k, ',')[0]);
      assert Owns(x, Split(k, ',')[0], x.envelopes[k]);
    }
  }

  lemma ReplyRemoves(x: Context, ids: seq<string>, i: string, v: Stored)
    requires Partitioned(x)
    ensures Partitioned(Reply(x, ids))
    ensures Owns(Reply(x, ids), i, v) <==> Owns(x, i, v) && i !in ids
    ensures Reply(x, ids).timeouts == x.timeouts - Elems(ids)
  {
    var y := x.(timeouts := x.timeouts - Elems(ids));
    SameEnvelopes(x, y, i, v);
    AnswerAllRemoves(y, ids, i, v);
  }

  lemma SameEnvelopes(x: Context, y: Context, i: string, v: Stored)
    requires x.envelopes == y.envelopes
    ensures Partitioned(x) ==> Partitioned(y)
    ensures Owns(x, i, v) <==> Owns(y, i, v)
    ensures Unanswered(x, i) <==> Unanswered(y, i)
  {
    assert forall k :: Holds(x, k, i) <==> Holds(y, k, i);
    assert forall k, j :: Holds(x, k, j) <==> Holds(y, k, j);
  }

  lemma ReplyArmed(x: Context, ids: seq<string>)
    requires Partitioned(x) && Armed(x)
    ensures Armed(Reply(x, ids))
  {
    var y := Reply(x, ids);
    forall id ensures id in y.timeouts <==> Unanswered(y, id) {
      UnansweredOwned(x, id);
      UnansweredOwned(y, id);
      forall v ensures Owns(y, id, v) <==> Owns(x, id, v) && id !in ids {
        ReplyRemoves(x, ids, id, v);
      }
      ReplyRemoves(x, ids, id, Stored(Envelope(0, []), false));
    }
  }

  /** An envelope of new ids joins the others. */
  lemma StoreAdds(x: Context, v: Stored)
    requires Partitioned(x) && ProperIds(v.envelope.ids) && v.envelope.number !in Numbers(x)
    requires forall id | id in v.envelope.ids :: !Unanswered(x, id)
    ensures var y, key := Store(x, v), Join(v.envelope.ids, ',');
            && Split(key, ',') == v.envelope.ids && key !in x.envelopes
            && Partitioned(y)
            && Numbers(y) == Numbers(x) + {v.envelope.number}
    ensures forall id :: Unanswered(Store(x, v), id) <==> Unanswered(x, id) || id in v.envelope.ids
  {
    var y, key := Store(x, v), Join(v.envelope.ids, ',');
    ProperSplit(v.envelope.ids);
    if key in x.envelopes {
      assert Holds(x, key, v.envelope.ids[0]);
    }
    forall k, id ensures Holds(y, k, id) <==> Holds(x, k, id) || (k == key && id in v.envelope.ids) {
    }
    forall k, l, id | Holds(y, k, id) && Holds(y, l, id) ensures k == l {
      assert k != key ==> Unanswered(x, id);
      assert l != key ==> Unanswered(x, id);
    }
    StoreUnanswered(x, v, key);
    forall n ensures n in Numbers(y) <==> n in Numbers(x) || n == v.envelope.number {
      if n in Numbers(x) {
        var k :| k in x.envelopes && x.envelopes[k].envelope.number == n;
        assert k in y.envelopes && y.envelopes[k].envelope.number == n;
      }
      assert y.envelopes[key].envelope.number == v.envelope.number;
    }
  }

  lemma StoreUnanswered(x: Context, v: Stored, key: string)
    requires key == Join(v.envelope.ids, ',') && Split(key, ',') == v.envelope.ids && key !in x.envelopes
    ensures forall id :: Unanswered(Store(x, v), id) <==> Unanswered(x, id) || id in v.envelope.ids
  {
    var y := Store(x, v);
    forall id ensures Unanswered(y, id) <==> Unanswered(x, id) || id in v.envelope.ids {
      if Unanswered(x, id) {
        var k :| k in x.envelopes && Holds(x, k, id);
        assert k in y.envelopes && Holds(y, k, id);
      }
      if id in v.envelope.ids {
        assert key in y.envelopes && Holds(y, key, id);
      }
      if Unanswered(y, id) {
        var k :| k in y.envelopes && Holds(y, k, id);
        assert k != key ==> k in x.envelopes && Holds(x, k, id);
      }
    }
  }

  /** Nothing of the context has been sent yet: every key is whole and no timeout runs. */
  ghost predicate Whole(x: Context) {
    x.timeouts == {} && forall k | k in x.envelopes :: Split(k, ',') == x.envelopes[k].envelope.ids
  }

  lemma OpeningArms(x: Context)
    requires Whole(x)
    ensures Armed(ArmAll(x))
  {
    var y := ArmAll(x);
    forall id ensures id in y.timeouts <==> Unanswered(y, id) {
      if id in y.timeouts {
        var k :| k in x.envelopes && id in x.envelopes[k].envelope.ids;
        assert k in y.envelopes && Holds(y, k, id);
      }
      if Unanswered(y, id) {
        var k :| k in y.envelopes && Holds(y, k, id);
        assert k in x.envelopes && id in x.envelopes[k].envelope.ids;
      }
    }
  }

  lemma StoreOwns(x: Context, v: Stored, i: string, w: Stored)
    requires Partitioned(x) && ProperIds(v.envelope.ids) && v.envelope.number !in Numbers(x)
    requires forall id | id in v.envelope.ids :: !Unanswered(x, id)
    ensures Owns(Store(x, v), i, w) <==> Owns(x, i, w) || (w == v && i in v.envelope.ids)
  {
    var y, key := Store(x, v), Join(v.envelope.ids, ',');
    StoreAdds(x, v);
    if Owns(y, i, w) {
      var k :| Holds(y, k, i) && y.envelopes[k] == w;
      assert k != key ==> Holds(x, k, i);
    }
    if Owns(x, i, w) {
      var k :| Holds(x, k, i) && x.envelopes[k] == w;
      assert Holds(y, k, i) && y.envelopes[k] == w;
    }
    if w == v && i in v.envelope.ids {
      assert Holds(y, key, i) && y.envelopes[key] == w;
    }
  }

  // -------------------------------------------------------------------------- the transport

  /** An envelope handed to the transport, and the context that took it. */
  datatype Sent = Sent(context: nat, stored: Stored)

  /**
   * The transport, every context it ever made, and its history: what was sent, which waiting ids were replied to and
   * how often each envelope was failed. A faulty context is one where opening the socket or writing to it failed.
   */
  datatype State = State(
    contexts: seq<Context>,
    context: Option<nat>,
    connecting: Option<nat>,
    online: set<nat>,
    faulty: set<nat>,
    sent: seq<Sent>,
    replied: set<string>,
    failures: multiset<nat>)

  const NEW_TRANSPORT := State([], None, None, {}, {}, [], {}, multiset{})

  /**
   * What happens to the transport. A context closes when its socket does, on a socket error, when one of its
   * timeouts or its connect timeout fires and when the forced close after an exception comes, however often.
   */
  datatype Event =
    | Sends(ids: seq<string>, metaConnect: bool, works: bool)
    | Opens(c: nat)
    | Messages(c: nat, replies: seq<string>)
    | Closes(c: nat)
    | Aborts
    | Resets

  ghost predicate Enabled(s: State, e: Event) {
    match e
    case Sends(ids, _, _) => ProperIds(ids) && forall id, n | id in ids && 0 <= n < |s.sent| :: id !in SentIds(s, n)
    case Opens(c) => c < |s.contexts| && c !in s.online && c !in s.faulty
    case Messages(c, _) => c in s.online
    case Closes(c) => c < |s.contexts|
    case Aborts => true
    case Resets => true
  }

  ghost function SentIds(s: State, n: nat): seq<string>
    requires n < |s.sent|
  {
    s.sent[n].stored.envelope.ids
  }

  predicate Same(s: State, c: nat) {
    s.context == Some(c) || s.connecting == Some(c)
  }

  function Target(s: State): nat {
    if s.context.Some? then s.context.value else if s.connecting.Some? then s.connecting.value else |s.contexts|
  }

  function At(s: State, c: nat): Context {
    if c < |s.contexts| then s.contexts[c] else NEW_CONTEXT
  }

  function Put(s: State, c: nat, x: Context): State
    requires c <= |s.contexts|
  {
    s.(contexts := if c < |s.contexts| then s.contexts[c := x] else s.contexts + [x])
  }

  /** Store, then write on an open socket, or wait for the one being opened, or open one. */
  function Send(s: State, ids: seq<string>, metaConnect: bool, works: bool): State
    requires Target(s) <= |s.contexts|
  {
    var c := Target(s);
    var v := Stored(Envelope(|s.sent|, ids), metaConnect);
    var stored := Put(s, c, Store(At(s, c), v)).(sent := s.sent + [Sent(c, v)]);
    if s.context.Some? then
      if works then Put(stored, c, Arm(At(stored, c), v.envelope)) else stored.(faulty := s.faulty + {c})
    else if s.connecting.Some? then stored
    else if works then stored.(connecting := Some(c))
    else stored.(faulty := s.faulty + {c})
  }

  /** The context is forgotten if it is the current one, and everything it holds fails. */
  function Close(s: State, c: nat): State
    requires c < |s.contexts|
  {
    var kept := if Same(s, c) then s.(context := None, connecting := None) else s;
    Put(kept, c, NEW_CONTEXT).(failures := s.failures + multiset(Numbers(s.contexts[c])))
  }

  /** A socket that is no longer wanted is closed at once. */
  function Open(s: State, c: nat): State
    requires c < |s.contexts|
  {
    var seen := s.(online := s.online + {c});
    if Same(s, c) then Put(seen, c, ArmAll(s.contexts[c])).(connecting := None, context := Some(c))
    else Close(seen, c)
  }

  ghost function Receive(s: State, c: nat, ids: seq<string>): State
    requires c < |s.contexts|
  {
    var waiting := set id | id in ids && Unanswered(s.contexts[c], id) :: id;
    Put(s, c, Reply(s.contexts[c], ids)).(replied := s.replied + waiting)
  }

  function Reset(s: State): State {
    s.(context := None, connecting := None)
  }

  function Abort(s: State): State
    requires s.context.Some? ==> s.context.value < |s.contexts|
  {
    Reset(if s.context.Some? then Close(s, s.context.value) else s)
  }

  ghost function Step(s: State, e: Event): State
    requires Slots(s) && Enabled(s, e)
  {
    match e
    case Sends(ids, metaConnect, works) => Send(s, ids, metaConnect, works)
    case Opens(c) => Open(s, c)
    case Messages(c, replies) => Receive(s, c, replies)
    case Closes(c) => Close(s, c)
    case Aborts => Abort(s)
    case Resets => Reset(s)
  }

  // --------------------------------------------------------------------------- invariants

  /** At most one socket is being opened or open, and which of the two it is. */
  ghost predicate Slots(s: State) {
    && !(s.context.Some? && s.connecting.Some?)
    && (s.context.Some? ==> s.context.value in s.online)
    && (s.connecting.Some? ==>
          s.connecting.value < |s.contexts| && s.connecting.value !in s.online && s.connecting.value !in s.faulty)
    && (forall c :: c in s.online || c in s.faulty ==> c < |s.contexts|)
  }

  /** Envelopes are numbered, and their ids are theirs alone. */
  ghost predicate History(s: State) {
    && (forall n | 0 <= n < |s.sent| ::
          s.sent[n].context < |s.contexts| && s.sent[n].stored.envelope.number == n && ProperIds(SentIds(s, n)))
    && (forall m, n, id | 0 <= m < |s.sent| && 0 <= n < |s.sent| && id in SentIds(s, m) && id in SentIds(s, n) ::
          m == n)
    && (forall id | id in s.replied :: exists n :: 0 <= n < |s.sent| && id in SentIds(s, n))
  }

  /** This envelope went to this context, has not failed, and this id of it has no reply. */
  ghost predicate Waits(s: State, c: nat, id: string, v: Stored) {
    var n := v.envelope.number;
    n < |s.sent| && s.sent[n] == Sent(c, v) && id in v.envelope.ids && id !in s.replied && s.failures[n] == 0
  }

  /** What a context holds is exactly what waits there. */
  ghost predicate Accounted(s: State) {
    forall c | 0 <= c < |s.contexts| :: AccountedAt(s, c)
  }

  ghost predicate AccountedAt(s: State, c: nat)
    requires c < |s.contexts|
  {
    Partitioned(s.contexts[c]) && forall id, v :: Owns(s.contexts[c], id, v) <==> Waits(s, c, id, v)
  }

  ghost predicate Incomplete(s: State, n: nat)
    requires n < |s.sent|
  {
    exists id :: id in SentIds(s, n) && id !in s.replied
  }

  /** An envelope fails at most once, and never once all its messages have replies. */
  ghost predicate FailsOnce(s: State) {
    forall n :: s.failures[n] > 0 ==> s.failures[n] == 1 && n < |s.sent| && Incomplete(s, n)
  }

  /** An open context has a timeout for exactly its unanswered ids; one not open yet has written nothing. */
  ghost predicate Timed(s: State) {
    forall c | 0 <= c < |s.contexts| :: TimedAt(s, c)
  }

  ghost predicate TimedAt(s: State, c: nat)
    requires c < |s.contexts|
  {
      && (c in s.online && c !in s.faulty ==> Armed(s.contexts[c]))
      && (c !in s.online ==> Whole(s.contexts[c]))
  }

  ghost predicate Inv(s: State) {
    Slots(s) && History(s) && Accounted(s) && FailsOnce(s) && Timed(s)
  }

  // ------------------------------------------------------------------------ steps keep them

  lemma HeldWaits(s: State, c: nat, id: string)
    requires Accounted(s) && c < |s.contexts|
    ensures Unanswered(s.contexts[c], id) <==> exists v :: Waits(s, c, id, v)
  {
    assert AccountedAt(s, c);
    UnansweredOwned(s.contexts[c], id);
  }

  lemma HeldNumbers(s: State, c: nat, n: nat)
    requires Accounted(s) && History(s) && c < |s.contexts|
    ensures n in Numbers(s.contexts[c]) <==>
              n < |s.sent| && s.sent[n].context == c && s.failures[n] == 0 && Incomplete(s, n)
  {
    assert AccountedAt(s, c);
    NumbersOwned(s.contexts[c], n);
    if n < |s.sent| && s.sent[n].context == c && s.failures[n] == 0 && Incomplete(s, n) {
      var id :| id in SentIds(s, n) && id !in s.replied;
      assert Waits(s, c, id, s.sent[n].stored);
    }
  }

  lemma CloseKeeps(s: State, c: nat)
    requires Inv(s) && c < |s.contexts|
    ensures Inv(Close(s, c))
  {
    var t := Close(s, c);
    forall n ensures t.failures[n] == s.failures[n] + if n in Numbers(s.contexts[c]) then 1 else 0 {
    }
    forall n | t.failures[n] > 0 ensures t.failures[n] == 1 && n < |t.sent| && Incomplete(t, n) {
      HeldNumbers(s, c, n);
      assert n < |s.sent| && Incomplete(s, n);
      var id :| id in SentIds(s, n) && id !in s.replied;
      assert id in SentIds(t, n) && id !in t.replied;
    }
    CloseAccounts(s, c);
    forall d | 0 <= d < |t.contexts| ensures TimedAt(t, d) {
      assert TimedAt(s, d);
    }
  }

  lemma CloseAccounts(s: State, c: nat)
    requires History(s) && Accounted(s) && c < |s.contexts|
    ensures Accounted(Close(s, c)) && History(Close(s, c))
  {
    var t := Close(s, c);
    forall n ensures t.failures[n] == s.failures[n] + if n in Numbers(s.contexts[c]) then 1 else 0 {
    }
    forall d | 0 <= d < |t.contexts| ensures AccountedAt(t, d) {
      assert AccountedAt(s, d);
      forall id, v ensures Owns(t.contexts[d], id, v) <==> Waits(t, d, id, v) {
        HeldNumbers(s, c, v.envelope.number);
        if Waits(s, d, id, v) {
          assert Incomplete(s, v.envelope.number);
        }
      }
    }
  }

  /** Only the socket states, the slots and the timeouts of a context differ. */
  lemma SameWaits(s: State, t: State)
    requires Accounted(s) && t.sent == s.sent && t.replied == s.replied && t.failures == s.failures
    requires |t.contexts| == |s.contexts|
    requires forall c | 0 <= c < |s.contexts| :: t.contexts[c].envelopes == s.contexts[c].envelopes
    ensures Accounted(t)
  {
    forall d | 0 <= d < |t.contexts| ensures AccountedAt(t, d) {
      assert AccountedAt(s, d);
      SameEnvelopes(s.contexts[d], t.contexts[d], "", Stored(Envelope(0, []), false));
      forall id, v ensures Owns(t.contexts[d], id, v) <==> Waits(t, d, id, v) {
        SameEnvelopes(s.contexts[d], t.contexts[d], id, v);
        assert Waits(t, d, id, v) <==> Waits(s, d, id, v);
      }
    }
  }

  lemma OpenKeeps(s: State, c: nat)
    requires Inv(s) && Enabled(s, Opens(c))
    ensures Inv(Open(s, c))
  {
    if Same(s, c) {
      OpenCurrentKeeps(s, c);
    } else {
      CloseKeeps(s, c);
      var t := Open(s, c);
      var u := Close(s, c);
      assert t == u.(online := s.online + {c});
      SameWaits(u, t);
      forall d | 0 <= d < |t.contexts| ensures TimedAt(t, d) {
        assert TimedAt(u, d);
      }
    }
  }

  lemma OpenCurrentKeeps(s: State, c: nat)
    requires Inv(s) && Enabled(s, Opens(c)) && Same(s, c)
    ensures Inv(Open(s, c))
  {
    var t := Open(s, c);
    assert TimedAt(s, c);
    OpeningArms(s.contexts[c]);
    SameWaits(s, t);
    forall d | 0 <= d < |t.contexts| ensures TimedAt(t, d) {
      assert TimedAt(s, d);
    }
  }

  lemma ResetKeeps(s: State)
    requires Inv(s)
    ensures Inv(Reset(s))
  {
    var t := Reset(s);
    SameWaits(s, t);
    forall d | 0 <= d < |t.contexts| ensures TimedAt(t, d) {
      assert TimedAt(s, d);
    }
  }

  lemma ReceiveKeeps(s: State, c: nat, ids: seq<string>)
    requires Inv(s) && c in s.online
    ensures Inv(Receive(s, c, ids))
  {
    var t := Receive(s, c, ids);
    ReceiveHistory(s, c, ids);
    ReceiveFails(s, c, ids);
    forall d | 0 <= d < |t.contexts| ensures TimedAt(t, d) {
      assert TimedAt(s, d) && AccountedAt(s, d);
      if d == c && c !in s.faulty {
        ReplyArmed(s.contexts[c], ids);
      }
    }
    forall d | 0 <= d < |t.contexts| ensures AccountedAt(t, d) {
      ReceiveAccounts(s, c, ids, d, "", Stored(Envelope(0, []), false));
      forall id, v ensures Owns(t.contexts[d], id, v) <==> Waits(t, d, id, v) {
        ReceiveAccounts(s, c, ids, d, id, v);
      }
    }
  }

  lemma ReceiveFails(s: State, c: nat, ids: seq<string>)
    requires Inv(s) && c < |s.contexts|
    ensures FailsOnce(Receive(s, c, ids))
  {
    var t := Receive(s, c, ids);
    forall n | t.failures[n] > 0 ensures t.failures[n] == 1 && n < |t.sent| && Incomplete(t, n) {
      var id :| id in SentIds(s, n) && id !in s.replied;
      forall v ensures !Waits(s, c, id, v) {
        if v.envelope.number < |s.sent| && v.envelope.number != n {
          assert id !in SentIds(s, v.envelope.number);
        }
      }
      NewRepliesWaited(s, c, ids, id);
      assert id in SentIds(t, n) && id !in t.replied;
    }
  }

  /** An id counts as replied to only if it was waiting on that very context. */
  lemma NewRepliesWaited(s: State, c: nat, ids: seq<string>, id: string)
    requires Inv(s) && c < |s.contexts|
    ensures id in Receive(s, c, ids).replied && id !in s.replied ==> exists v :: Waits(s, c, id, v)
  {
    HeldWaits(s, c, id);
  }

  lemma ReceiveHistory(s: State, c: nat, ids: seq<string>)
    requires Inv(s) && c < |s.contexts|
    ensures History(Receive(s, c, ids))
  {
    var t := Receive(s, c, ids);
    forall id | id in t.replied ensures exists n :: 0 <= n < |t.sent| && id in SentIds(t, n) {
      if id in s.replied {
        var n :| 0 <= n < |s.sent| && id in SentIds(s, n);
        assert id in SentIds(t, n);
      } else {
        NewRepliesWaited(s, c, ids, id);
        var v :| Waits(s, c, id, v);
        assert id in SentIds(t, v.envelope.number);
      }
    }
    forall m, n, id | 0 <= m < |t.sent| && 0 <= n < |t.sent| && id in SentIds(t, m) && id in SentIds(t, n)
      ensures m == n
    {
      assert id in SentIds(s, m) && id in SentIds(s, n);
    }
  }

  lemma ReceiveAccounts(s: State, c: nat, ids: seq<string>, d: nat, id: string, v: Stored)
    requires Inv(s) && c < |s.contexts| && d < |s.contexts|
    ensures var t := Receive(s, c, ids);
            Partitioned(t.contexts[d]) && (Owns(t.contexts[d], id, v) <==> Waits(t, d, id, v))
  {
    assert AccountedAt(s, c) && AccountedAt(s, d);
    var t := Receive(s, c, ids);
    ReplyRemoves(s.contexts[c], ids, id, v);
    HeldWaits(s, c, id);
    assert forall w | Waits(s, d, id, v) && Waits(s, c, id, w) :: c == d;
    assert id in t.replied <==> id in s.replied || (id in ids && Unanswered(s.contexts[c], id));
    assert Waits(t, d, id, v) <==> Waits(s, d, id, v) && id !in t.replied;
    if d != c {
      assert t.contexts[d] == s.contexts[d];
    }
  }

  lemma SendHistory(s: State, ids: seq<string>, metaConnect: bool, works: bool)
    requires Inv(s) && Enabled(s, Sends(ids, metaConnect, works))
    ensures History(Send(s, ids, metaConnect, works)) && FailsOnce(Send(s, ids, metaConnect, works))
  {
    GrowHistory(s, Send(s, ids, metaConnect, works), Sent(Target(s), Stored(Envelope(|s.sent|, ids), metaConnect)));
  }

  lemma GrowHistory(s: State, t: State, x: Sent)
    requires History(s) && FailsOnce(s) && t.sent == s.sent + [x] && t.replied == s.replied && t.failures == s.failures
    requires |s.contexts| <= |t.contexts| && x.context < |t.contexts|
    requires x.stored.envelope.number == |s.sent| && ProperIds(x.stored.envelope.ids)
    requires forall id, n | id in x.stored.envelope.ids && 0 <= n < |s.sent| :: id !in SentIds(s, n)
    ensures History(t) && FailsOnce(t)
  {
    forall n | 0 <= n < |s.sent| ensures SentIds(t, n) == SentIds(s, n) {
    }
    forall m, n, id | 0 <= m < |t.sent| && 0 <= n < |t.sent| && id in SentIds(t, m) && id in SentIds(t, n)
      ensures m == n
    {
      if m < |s.sent| && n < |s.sent| {
        assert id in SentIds(s, m) && id in SentIds(s, n);
      }
    }
    forall id | id in t.replied ensures exists n :: 0 <= n < |t.sent| && id in SentIds(t, n) {
      var n :| 0 <= n < |s.sent| && id in SentIds(s, n);
      assert id in SentIds(t, n);
    }
    forall n | t.failures[n] > 0 ensures t.failures[n] == 1 && n < |t.sent| && Incomplete(t, n) {
      var id :| id in SentIds(s, n) && id !in s.replied;
      assert id in SentIds(t, n) && id !in t.replied;
    }
  }

  /** The new envelope can be stored: its number and its ids are not held anywhere. */
  lemma NewIsFresh(s: State, ids: seq<string>, c: nat)
    requires Inv(s) && Enabled(s, Sends(ids, false, false)) && c <= |s.contexts|
    ensures Partitioned(At(s, c)) && |s.sent| !in Numbers(At(s, c))
    ensures forall id | id in ids :: !Unanswered(At(s, c), id)
  {
    if c < |s.contexts| {
      assert AccountedAt(s, c);
      HeldNumbers(s, c, |s.sent|);
      forall id | id in ids ensures !Unanswered(s.contexts[c], id) {
        HeldWaits(s, c, id);
        forall v: Stored | v.envelope.number < |s.sent| ensures !Waits(s, c, id, v) {
          assert id !in SentIds(s, v.envelope.number);
        }
      }
    }
  }

  lemma SendAccounts(s: State, ids: seq<string>, metaConnect: bool, works: bool, d: nat, id: string, w: Stored)
    requires Inv(s) && Enabled(s, Sends(ids, metaConnect, works)) && d < |Send(s, ids, metaConnect, works).contexts|
    ensures var t := Send(s, ids, metaConnect, works);
            Partitioned(t.contexts[d]) && (Owns(t.contexts[d], id, w) <==> Waits(t, d, id, w))
  {
    if d == Target(s) {
      var v := Stored(Envelope(|s.sent|, ids), metaConnect);
      var x := At(s, d);
      NewIsFresh(s, ids, d);
      StoreAdds(x, v);
      StoreOwns(x, v, id, w);
      SameEnvelopes(Store(x, v), Send(s, ids, metaConnect, works).contexts[d], id, w);
      HoldsOnlyWaiting(s, d, id, w);
    } else {
      assert AccountedAt(s, d);
    }
  }

  lemma HoldsOnlyWaiting(s: State, c: nat, id: string, v: Stored)
    requires History(s) && Accounted(s) && c <= |s.contexts|
    ensures Owns(At(s, c), id, v) <==> Waits(s, c, id, v)
  {
    if c < |s.contexts| {
      assert AccountedAt(s, c);
    }
  }

  lemma SendTimed(s: State, ids: seq<string>, metaConnect: bool, works: bool, d: nat)
    requires Inv(s) && Enabled(s, Sends(ids, metaConnect, works)) && d < |Send(s, ids, metaConnect, works).contexts|
    ensures TimedAt(Send(s, ids, metaConnect, works), d)
  {
    assert d < |s.contexts| ==> TimedAt(s, d);
    if d == Target(s) {
      var y := Send(s, ids, metaConnect, works).contexts[d];
      var v := Stored(Envelope(|s.sent|, ids), metaConnect);
      NewIsFresh(s, ids, d);
      StoreAdds(At(s, d), v);
      if s.context.Some? && works && d !in s.faulty {
        forall id ensures id in y.timeouts <==> Unanswered(y, id) {
          SameEnvelopes(Store(At(s, d), v), y, id, v);
        }
      }
    }
  }

  lemma SendKeeps(s: State, ids: seq<string>, metaConnect: bool, works: bool)
    requires Inv(s) && Enabled(s, Sends(ids, metaConnect, works))
    ensures Inv(Send(s, ids, metaConnect, works))
  {
    var t := Send(s, ids, metaConnect, works);
    SendHistory(s, ids, metaConnect, works);
    forall d | 0 <= d < |t.contexts| ensures AccountedAt(t, d) && TimedAt(t, d) {
      SendTimed(s, ids, metaConnect, works, d);
      SendAccounts(s, ids, metaConnect, works, d, "", Stored(Envelope(0, []), false));
      forall id, w ensures Owns(t.contexts[d], id, w) <==> Waits(t, d, id, w) {
        SendAccounts(s, ids, metaConnect, works, d, id, w);
      }
    }
  }

  lemma StepKeeps(s: State, e: Event)
    requires Inv(s) && Enabled(s, e)
    ensures Inv(Step(s, e))
  {
    match e
    case Sends(ids, metaConnect, works) => SendKeeps(s, ids, metaConnect, works);
    case Opens(c) => OpenKeeps(s, c);
    case Messages(c, replies) => ReceiveKeeps(s, c, replies);
    case Closes(c) => CloseKeeps(s, c);
    case Aborts =>
      if s.context.Some? {
        CloseKeeps(s, s.context.value);
        ResetKeeps(Close(s, s.context.value));
      } else {
        ResetKeeps(s);
      }
    case Resets => ResetKeeps(s);
  }

  // ------------------------------------------------------------------------------- whole runs

  ghost predicate Run(s: State, es: seq<Event>)
    decreases |es|
  {
    es == [] || (Slots(s) && Enabled(s, es[0]) && Run(Step(s, es[0]), es[1..]))
  }

  ghost function After(s: State, es: seq<Event>): State
    requires Run(s, es)
    decreases |es|
  {
    if es == [] then s else After(Step(s, es[0]), es[1..])
  }

  /** Everything the invariants say holds after any run. */
  lemma {:induction false} RunKeepsInv(s: State, es: seq<Event>)
    requires Inv(s) && Run(s, es)
    ensures Inv(After(s, es))
    decreases |es|
  {
    if es != [] {
      StepKeeps(s, es[0]);
      RunKeepsInv(Step(s, es[0]), es[1..]);
    }
  }

  /** The ids of an envelope that have no reply yet. */
  ghost function Missing(s: State, n: nat): set<string>
    requires n < |s.sent|
  {
    set id | id in SentIds(s, n) && id !in s.replied
  }

  /**
   * After any run, the ids under the key of an envelope are exactly its ids without a reply, no id is under two keys,
   * and an envelope has a key exactly while it is incomplete and has not failed. With the socket open, the ids under
   * the keys are those with a live timeout.
   */
  lemma KeysPartitionUnanswered(es: seq<Event>, c: nat)
    requires Run(NEW_TRANSPORT, es) && c < |After(NEW_TRANSPORT, es).contexts|
    ensures var s := After(NEW_TRANSPORT, es);
            var x := s.contexts[c];
            && (forall k | k in x.envelopes ::
                  && x.envelopes[k].envelope.number < |s.sent|
                  && Elems(Split(k, ',')) == Missing(s, x.envelopes[k].envelope.number))
            && (forall k, l, id | Holds(x, k, id) && Holds(x, l, id) :: k == l)
            && (forall n | 0 <= n < |s.sent| && s.sent[n].context == c ::
                  n in Numbers(x) <==> s.failures[n] == 0 && Missing(s, n) != {})
            && (c in s.online && c !in s.faulty ==> forall id :: id in x.timeouts <==> Unanswered(x, id))
  {
    RunKeepsInv(NEW_TRANSPORT, es);
    var s := After(NEW_TRANSPORT, es);
    assert AccountedAt(s, c) && TimedAt(s, c);
    forall k | k in s.contexts[c].envelopes
      ensures s.contexts[c].envelopes[k].envelope.number < |s.sent|
              && Elems(Split(k, ',')) == Missing(s, s.contexts[c].envelopes[k].envelope.number)
    {
      KeyIsOpen(s, c, k);
    }
    forall n | 0 <= n < |s.sent| && s.sent[n].context == c
      ensures n in Numbers(s.contexts[c]) <==> s.failures[n] == 0 && Missing(s, n) != {}
    {
      HeldNumbers(s, c, n);
      OpenIncomplete(s, n);
    }
  }

  lemma OpenIncomplete(s: State, n: nat)
    requires n < |s.sent|
    ensures Incomplete(s, n) <==> Missing(s, n) != {}
  {
    if Incomplete(s, n) {
      var id :| id in SentIds(s, n) && id !in s.replied;
      assert id in Missing(s, n);
    }
  }

  lemma KeyIsOpen(s: State, c: nat, k: string)
    requires Accounted(s) && c < |s.contexts| && k in s.contexts[c].envelopes
    ensures var n := s.contexts[c].envelopes[k].envelope.number;
            n < |s.sent| && Elems(Split(k, ',')) == Missing(s, n)
  {
    assert AccountedAt(s, c);
    var x := s.contexts[c];
    var v := x.envelopes[k];
    assert ProperIds(Split(k, ','));
    assert Holds(x, k, Split(k, ',')[0]) && Owns(x, Split(k, ',')[0], v);
    forall id ensures id in Split(k, ',') <==> id in Missing(s, v.envelope.number) {
      if id in Split(k, ',') {
        assert Holds(x, k, id) && Owns(x, id, v);
      }
      if id in Missing(s, v.envelope.number) {
        assert Waits(s, c, id, v);
        var l :| Holds(x, l, id) && x.envelopes[l] == v;
        assert l == k;
      }
    }
  }

  /** Closing a context settles its envelopes: each has failed, once, exactly if one of its messages has no reply. */
  lemma ClosingSettles(s: State, c: nat, n: nat)
    requires Inv(s) && c < |s.contexts| && n < |s.sent| && s.sent[n].context == c
    ensures Close(s, c).failures[n] == if Incomplete(s, n) then 1 else 0
  {
    HeldNumbers(s, c, n);
    assert s.failures[n] == 0 || s.failures[n] == 1;
  }

  /** No step takes anything back. */
  lemma StepGrows(s: State, e: Event)
    requires Slots(s) && Enabled(s, e)
    ensures var t := Step(s, e);
            && s.sent <= t.sent && s.replied <= t.replied && |s.contexts| <= |t.contexts|
            && forall n :: s.failures[n] <= t.failures[n]
  {
  }

  lemma SettledStep(s: State, e: Event, n: nat)
    requires Inv(s) && Enabled(s, e) && n < |s.sent|
    requires s.failures[n] == 1 || !Incomplete(s, n)
    ensures var t := Step(s, e);
            && n < |t.sent| && t.sent[n] == s.sent[n]
            && t.failures[n] == s.failures[n]
            && (Incomplete(t, n) <==> Incomplete(s, n))
  {
    StepKeeps(s, e);
    StepGrows(s, e);
    assert Incomplete(Step(s, e), n) ==> Incomplete(s, n);
  }

  /**
   * Once an envelope has failed, or all its messages have replies, no later run changes that: it never fails again,
   * it never fails after all, and late replies do not complete it.
   */
  lemma {:induction false} SettledStays(s: State, es: seq<Event>, n: nat)
    requires Inv(s) && Run(s, es) && n < |s.sent|
    requires s.failures[n] == 1 || !Incomplete(s, n)
    ensures var t := After(s, es);
            && n < |t.sent| && t.sent[n] == s.sent[n]
            && t.failures[n] == s.failures[n]
            && (Incomplete(t, n) <==> Incomplete(s, n))
    decreases |es|
  {
    if es != [] {
      StepKeeps(s, es[0]);
      SettledStep(s, es[0], n);
      SettledStays(Step(s, es[0]), es[1..], n);
    }
  }

  /** While an envelope waits on an open socket, one of its messages has a timeout that will close the context. */
  lemma WaitingIsTimed(s: State, n: nat)
    requires Inv(s) && n < |s.sent| && s.failures[n] == 0 && Incomplete(s, n)
    requires s.sent[n].context in s.online && s.sent[n].context !in s.faulty
    ensures exists id :: id in SentIds(s, n) && id in s.contexts[s.sent[n].context].timeouts
  {
    var c := s.sent[n].context;
    var id :| id in SentIds(s, n) && id !in s.replied;
    assert AccountedAt(s, c) && TimedAt(s, c);
    assert Waits(s, c, id, s.sent[n].stored);
    HeldWaits(s, c, id);
    assert id in SentIds(s, n) && id in s.contexts[c].timeouts;
  }

  /** A context that is neither current nor being opened is stale for good: it never becomes either again. */
  lemma {:induction false} StaleForGood(s: State, es: seq<Event>, c: nat)
    requires Inv(s) && Run(s, es) && c < |s.contexts| && !Same(s, c)
    ensures c < |After(s, es).contexts| && !Same(After(s, es), c)
    decreases |es|
  {
    if es != [] {
      StepKeeps(s, es[0]);
      StepGrows(s, es[0]);
      StaleForGood(Step(s, es[0]), es[1..], c);
    }
  }

  /** An event of a stale socket leaves the current and the opening context, and what they hold, as they are. */
  lemma StaleChangesNothingElse(s: State, e: Event, c: nat, d: nat)
    requires Inv(s) && Enabled(s, e) && c < |s.contexts| && !Same(s, c) && d < |s.contexts| && d != c
    requires e == Opens(c) || e == Closes(c) || (e.Messages? && e.c == c)
    ensures var t := Step(s, e);
            t.context == s.context && t.connecting == s.connecting && t.contexts[d] == s.contexts[d]
  {
  }
}
