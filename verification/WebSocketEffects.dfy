/** What each event does to the WebSocket transport: which envelopes it fails, which ids it answers, which timeouts run
    and which socket is current afterwards. */
module WebSocketEffects {
  import opened Wrappers
  import opened Utils
  import opened WebSocketSessions

  /** The counts of failures rise by one for exactly the incomplete envelopes of the context that had not failed. */
  ghost predicate FailsThose(s: State, t: State, c: nat) {
    forall n: nat ::
      t.failures[n] ==
        if n >= |s.sent| || s.sent[n].context != c then s.failures[n] else if Incomplete(s, n) then 1 else 0
  }

  ghost predicate Empty(x: Context) {
    x.envelopes == map[] && x.timeouts == {}
  }

  /** All contexts but c are as they were. */
  ghost predicate OthersSame(s: State, t: State, c: nat) {
    |t.contexts| >= |s.contexts| && forall d | 0 <= d < |s.contexts| && d != c :: t.contexts[d] == s.contexts[d]
  }

  ghost predicate SameHistoryBut(s: State, t: State) {
    t.sent == s.sent && t.replied == s.replied && t.faulty == s.faulty
  }

  lemma FailsHeld(s: State, t: State, c: nat)
    requires Inv(s) && c < |s.contexts| && t.failures == s.failures + multiset(Numbers(s.contexts[c]))
    ensures FailsThose(s, t, c)
  {
    forall n: nat
      ensures t.failures[n] ==
              if n < |s.sent| && s.sent[n].context == c then (if Incomplete(s, n) then 1 else 0) else s.failures[n]
    {
      HeldNumbers(s, c, n);
      assert t.failures[n] == s.failures[n] + if n in Numbers(s.contexts[c]) then 1 else 0;
      assert s.failures[n] > 0 ==> s.failures[n] == 1 && n < |s.sent| && Incomplete(s, n);
    }
  }

  /** Closing: the context loses everything, its incomplete envelopes fail, and if it was the current or the opening one
      there is none afterwards. */
  lemma ClosesFail(s: State, c: nat)
    requires Inv(s) && c < |s.contexts|
    ensures var t := Step(s, Closes(c));
            && FailsThose(s, t, c) && Empty(t.contexts[c]) && OthersSame(s, t, c) && |t.contexts| == |s.contexts|
            && SameHistoryBut(s, t) && t.online == s.online
            && t.context == (if s.context == Some(c) then None else s.context)
            && t.connecting == (if s.connecting == Some(c) then None else s.connecting)
  {
    FailsHeld(s, Step(s, Closes(c)), c);
  }

  /** Aborting fails the incomplete envelopes of the current context, at once, and of no other; afterwards no context is
      current or being opened. */
  lemma AbortFailsCurrent(s: State)
    requires Inv(s)
    ensures var t := Step(s, Aborts);
            && t.context == None && t.connecting == None && SameHistoryBut(s, t) && t.online == s.online
            && |t.contexts| == |s.contexts|
            && match s.context
               case Some(c) => FailsThose(s, t, c) && Empty(t.contexts[c]) && OthersSame(s, t, c)
               case None => t.failures == s.failures && t.contexts == s.contexts
  {
    if s.context.Some? {
      FailsHeld(s, Step(s, Aborts), s.context.value);
    }
  }

  /** Resetting forgets the current and the opening context and touches nothing that they hold. */
  lemma ResetForgets(s: State)
    requires Inv(s)
    ensures var t := Step(s, Resets);
            && t.context == None && t.connecting == None && SameHistoryBut(s, t) && t.online == s.online
            && t.contexts == s.contexts && t.failures == s.failures
  {
  }

  /** A socket that opens in time becomes the current one, with a timeout for each id that waits there; any other is
      closed at once, with the same effect as closing. */
  lemma OpensOrCloses(s: State, c: nat)
    requires Inv(s) && Enabled(s, Opens(c))
    ensures var t := Step(s, Opens(c));
            && t.online == s.online + {c} && SameHistoryBut(s, t) && OthersSame(s, t, c) && |t.contexts| == |s.contexts|
            && if s.connecting == Some(c) then
                 && t.context == Some(c) && t.connecting == None && t.failures == s.failures
                 && t.contexts[c].envelopes == s.contexts[c].envelopes
                 && forall id :: id in t.contexts[c].timeouts <==> Unanswered(s.contexts[c], id)
               else
                 t.context == s.context && t.connecting == s.connecting && FailsThose(s, t, c) && Empty(t.contexts[c])
  {
    var t := Step(s, Opens(c));
    assert AccountedAt(s, c) && TimedAt(s, c);
    if s.connecting == Some(c) {
      OpeningArms(s.contexts[c]);
      forall id ensures id in t.contexts[c].timeouts <==> Unanswered(s.contexts[c], id) {
        SameEnvelopes(s.contexts[c], t.contexts[c], id, Stored(Envelope(0, []), false));
      }
    } else {
      FailsHeld(s, t, c);
    }
  }

  /** Replies answer exactly those of their ids that wait on the context: these leave its keys and its timeouts, all
      others keep their envelope, nothing fails, and no socket changes. */
  lemma RepliesAnswer(s: State, c: nat, replies: seq<string>)
    requires Inv(s) && Enabled(s, Messages(c, replies))
    ensures var t := Step(s, Messages(c, replies));
            && t.context == s.context && t.connecting == s.connecting && t.online == s.online
            && t.sent == s.sent && t.faulty == s.faulty && t.failures == s.failures
            && OthersSame(s, t, c) && |t.contexts| == |s.contexts|
            && (forall id, v :: Owns(t.contexts[c], id, v) <==> Owns(s.contexts[c], id, v) && id !in replies)
            && (forall id :: id in t.contexts[c].timeouts <==> id in s.contexts[c].timeouts && id !in replies)
            && (forall id :: id in t.replied <==>
                  id in s.replied || (id in replies && exists v :: Owns(s.contexts[c], id, v)))
  {
    var t := Step(s, Messages(c, replies));
    assert AccountedAt(s, c);
    forall id, v ensures Owns(t.contexts[c], id, v) <==> Owns(s.contexts[c], id, v) && id !in replies {
      ReplyRemoves(s.contexts[c], replies, id, v);
    }
    ReplyRemoves(s.contexts[c], replies, "", Stored(Envelope(0, []), false));
    forall id ensures id in t.replied <==>
                      id in s.replied || (id in replies && exists v :: Owns(s.contexts[c], id, v)) {
      UnansweredOwned(s.contexts[c], id);
    }
  }

  /** The context that takes an envelope: the current one, the one being opened, or a new one. */
  predicate Takes(s: State, c: nat) {
    match s.context
    case Some(d) => c == d
    case None => match s.connecting
                 case Some(d) => c == d
                 case None => c == |s.contexts|
  }

  /** An envelope sent is recorded with its messages and its flag, and waits in the context that takes it. Its timeouts
      run if it was written. A failed write, and a socket that cannot be made, leave the context faulty. */
  lemma SendsStore(s: State, ids: seq<string>, metaConnect: bool, works: bool) returns (c: nat)
    requires Inv(s) && Enabled(s, Sends(ids, metaConnect, works))
    ensures Takes(s, c)
    ensures var t := Step(s, Sends(ids, metaConnect, works));
            var v := Stored(Envelope(|s.sent|, ids), metaConnect);
            && c < |t.contexts| && OthersSame(s, t, c) && |t.contexts| <= |s.contexts| + 1
            && t.sent == s.sent + [Sent(c, v)]
            && t.replied == s.replied && t.failures == s.failures && t.online == s.online && t.context == s.context
            && t.connecting == (if s.context.None? && s.connecting.None? && works then Some(c) else s.connecting)
            && t.faulty == (if !works && (s.context.Some? || s.connecting.None?) then s.faulty + {c} else s.faulty)
            && (forall id, w :: Owns(t.contexts[c], id, w) <==>
                  (c < |s.contexts| && Owns(s.contexts[c], id, w)) || (w == v && id in ids))
            && (forall id :: id in t.contexts[c].timeouts <==>
                  (c < |s.contexts| && id in s.contexts[c].timeouts) || (s.context.Some? && works && id in ids))
  {
    var t := Step(s, Sends(ids, metaConnect, works));
    var v := Stored(Envelope(|s.sent|, ids), metaConnect);
    c := Target(s);
    NewIsFresh(s, ids, c);
    forall id, w ensures Owns(t.contexts[c], id, w) <==>
                         (c < |s.contexts| && Owns(s.contexts[c], id, w)) || (w == v && id in ids) {
      StoreOwns(At(s, c), v, id, w);
      SameEnvelopes(Store(At(s, c), v), t.contexts[c], id, w);
    }
  }
}
