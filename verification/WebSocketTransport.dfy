/** The WebSocket transport object: fields updated in place, each method meeting the machine of WebSocketSessions. */
module WebSocketTransport {
  import opened Wrappers
  import opened Strings
  import opened Utils
  import opened WebSocketSessions

  class Transport {
    var contexts: seq<Context>
    var context: Option<nat>
    var connecting: Option<nat>
    var sent: seq<Sent>
    var failed: seq<nat>
    ghost var online: set<nat>
    ghost var faulty: set<nat>
    ghost var replied: set<string>

    constructor ()
      ensures View() == NEW_TRANSPORT
    {
      contexts, context, connecting, sent, failed := [], None, None, [], [];
      online, faulty, replied := {}, {}, {};
    }

    ghost function View(): State
      reads this
    {
      State(contexts, context, connecting, online, faulty, sent, replied, multiset(failed))
    }

    predicate SameContext(c: nat)
      reads this`context, this`connecting
    {
      connecting == Some(c) || context == Some(c)
    }

    method StoreEnvelope(c: nat, v: Stored)
      requires c < |contexts|
      modifies this`contexts, this`sent
      ensures sent == old(sent) + [Sent(c, v)]
      ensures var x, key := old(contexts[c]), Join(Identified(v.envelope.ids), ',');
              contexts == old(contexts)[c := x.(envelopes := x.envelopes[key := v])]
    {
      var messageIds: seq<string> := [];
      for i := 0 to |v.envelope.ids|
        invariant messageIds == Identified(v.envelope.ids[..i])
        invariant contexts == old(contexts) && sent == old(sent)
      {
        assert v.envelope.ids[..i + 1][..i] == v.envelope.ids[..i];
        if v.envelope.ids[i] != "" {
          messageIds := messageIds + [v.envelope.ids[i]];
        }
      }
      assert v.envelope.ids[..|v.envelope.ids|] == v.envelope.ids;
      contexts := contexts[c := contexts[c].(envelopes := contexts[c].envelopes[Join(messageIds, ',') := v])];
      sent := sent + [Sent(c, v)];
    }

    /** Writes the envelope and starts a timeout for each of its messages, unless the write fails. */
    method WebSocketSend(c: nat, envelope: Envelope, works: bool) returns (thrown: bool)
      requires c < |contexts| && forall id | id in envelope.ids :: id != ""
      modifies this`contexts
      ensures thrown == !works
      ensures contexts == if works then old(contexts)[c := Arm(old(contexts[c]), envelope)] else old(contexts)
    {
      if !works {
        return true;
      }
      var x := contexts[c];
      assert x.timeouts + Elems(envelope.ids[..0]) == x.timeouts;
      for i := 0 to |envelope.ids|
        invariant contexts == old(contexts)[c := x]
        invariant x.envelopes == old(contexts[c]).envelopes
        invariant x.timeouts == old(contexts[c]).timeouts + Elems(envelope.ids[..i])
      {
        var id := envelope.ids[i];
        assert id in envelope.ids;
        assert Elems(envelope.ids[..i + 1]) == Elems(envelope.ids[..i]) + {id};
        if id != "" {
          x := x.(timeouts := x.timeouts + {id});
          contexts := contexts[c := x];
        }
      }
      assert envelope.ids[..|envelope.ids|] == envelope.ids;
      return false;
    }

    /** Early return while a socket is being opened; a socket that cannot be made is an exception. */
    method WebSocketConnect(c: nat, works: bool) returns (thrown: bool)
      modifies this`connecting
      ensures thrown == (old(connecting).None? && !works)
      ensures connecting == if old(connecting).None? && works then Some(c) else old(connecting)
    {
      if connecting.Some? {
        return false;
      }
      if works {
        connecting := Some(c);
      }
      return !works;
    }

    method SendEnvelope(ids: seq<string>, metaConnect: bool, works: bool)
      requires Slots(View()) && Enabled(View(), Sends(ids, metaConnect, works))
      modifies this
      ensures View() == Step(old(View()), Sends(ids, metaConnect, works))
    {
      var v := Stored(Envelope(|sent|, ids), metaConnect);
      if context.None? {
        StoreAndConnect(v, works);
      } else {
        StoreAndWrite(v, works);
      }
    }

    /** On an open socket the envelope is written at once. */
    method StoreAndWrite(v: Stored, works: bool)
      requires context.Some? && context.value < |contexts|
      requires v.envelope.number == |sent| && forall id | id in v.envelope.ids :: id != ""
      modifies this
      ensures Target(old(View())) <= |old(contexts)|
      ensures View() == Send(old(View()), v.envelope.ids, v.metaConnect, works)
    {
      var c := context.value;
      ghost var before := View();
      IdentifiedProper(v.envelope.ids);
      StoreEnvelope(c, v);
      assert View() == before.(contexts := before.contexts[c := Store(before.contexts[c], v)],
                               sent := before.sent + [Sent(c, v)]);
      var thrown := WebSocketSend(c, v.envelope, works);
      if thrown {
        faulty := faulty + {c};
      }
    }

    /** Without an open socket the envelope waits in the context being opened, or in a new one. */
    method StoreAndConnect(v: Stored, works: bool)
      requires context.None? && (connecting.Some? ==> connecting.value < |contexts|)
      requires v.envelope.number == |sent| && forall id | id in v.envelope.ids :: id != ""
      modifies this
      ensures Target(old(View())) <= |old(contexts)|
      ensures View() == Send(old(View()), v.envelope.ids, v.metaConnect, works)
    {
      var c := |contexts|;
      if connecting.Some? {
        c := connecting.value;
      } else {
        contexts := contexts + [NEW_CONTEXT];
      }
      ghost var before := View();
      IdentifiedProper(v.envelope.ids);
      StoreEnvelope(c, v);
      assert View() == before.(contexts := before.contexts[c := Store(before.contexts[c], v)],
                               sent := before.sent + [Sent(c, v)]);
      var thrown := WebSocketConnect(c, works);
      if thrown {
        faulty := faulty + {c};
      }
    }

    method OnOpen(c: nat)
      requires c < |contexts|
      requires forall k | k in contexts[c].envelopes :: ProperIds(contexts[c].envelopes[k].envelope.ids)
      modifies this`contexts
      ensures contexts == old(contexts)[c := ArmAll(old(contexts[c]))]
    {
      var before := contexts[c];
      var keys := before.envelopes.Keys;
      ghost var written: set<string> := {};
      assert before.timeouts + written == before.timeouts;
      while keys != {}
        invariant keys <= before.envelopes.Keys
        invariant contexts == old(contexts)[c := before.(timeouts := before.timeouts + written)]
        invariant written ==
                  set k, id | k in before.envelopes && k !in keys && id in before.envelopes[k].envelope.ids :: id
      {
        var key :| key in keys;
        var envelope := before.envelopes[key].envelope;
        var thrown := WebSocketSend(c, envelope, true);
        keys := keys - {key};
        assert before.timeouts + written + Elems(envelope.ids) == before.timeouts + (written + Elems(envelope.ids));
        written := written + Elems(envelope.ids);
      }
      assert written == set k, id | k in before.envelopes && id in before.envelopes[k].envelope.ids :: id;
    }

    /** The socket's open handler. */
    method Opened(c: nat)
      requires Inv(View()) && Enabled(View(), Opens(c))
      modifies this
      ensures View() == Step(old(View()), Opens(c))
    {
      assert AccountedAt(View(), c) && TimedAt(View(), c);
      online := online + {c};
      if SameContext(c) {
        connecting := None;
        context := Some(c);
        OnOpen(c);
      } else {
        ForceClose(Some(c));
      }
    }

    method OnMessage(c: nat, replies: seq<string>)
      requires Inv(View()) && Enabled(View(), Messages(c, replies))
      modifies this
      ensures View() == Step(old(View()), Messages(c, replies))
    {
      assert AccountedAt(View(), c);
      var messageIds: seq<string> := [];
      var x := contexts[c];
      for i := 0 to |replies|
        invariant messageIds == replies[..i] && contexts == old(contexts)[c := x]
        invariant View() == old(View()).(contexts := contexts)
        invariant x.envelopes == old(contexts[c]).envelopes
        invariant x.timeouts == old(contexts[c]).timeouts - Elems(replies[..i])
      {
        assert Elems(replies[..i + 1]) == Elems(replies[..i]) + {replies[i]};
        messageIds := messageIds + [replies[i]];
        x := x.(timeouts := x.timeouts - {replies[i]});
        contexts := contexts[c := x];
      }
      assert messageIds == replies && replies[..|replies|] == replies;
      replied := replied + set id | id in replies && Unanswered(old(contexts[c]), id) :: id;
      SameEnvelopes(old(contexts[c]), x, "", Stored(Envelope(0, []), false));
      assert x == old(contexts[c]).(timeouts := old(contexts[c]).timeouts - Elems(replies));
      RemoveEnvelopes(c, messageIds);
      assert contexts == old(contexts)[c := Reply(old(contexts[c]), replies)];
    }

    /** Removes the envelopes of the messages, as far as they are now all answered. */
    method RemoveEnvelopes(c: nat, messageIds: seq<string>)
      requires c < |contexts| && Partitioned(contexts[c])
      modifies this`contexts
      ensures contexts == old(contexts)[c := AnswerAll(old(contexts[c]), messageIds)]
    {
      for j := 0 to |messageIds|
        invariant |contexts| == |old(contexts)| && contexts == old(contexts)[c := contexts[c]]
        invariant Partitioned(contexts[c])
        invariant AnswerAll(contexts[c], messageIds[j..]) == AnswerAll(old(contexts[c]), messageIds)
      {
        assert messageIds[j..][0] == messageIds[j] && messageIds[j..][1..] == messageIds[j + 1..];
        AnswerOne(contexts[c], messageIds[j], "", Stored(Envelope(0, []), false));
        RemoveMessage(c, messageIds[j]);
      }
    }

    method RemoveMessage(c: nat, id: string)
      requires c < |contexts| && Partitioned(contexts[c])
      modifies this`contexts
      ensures contexts == old(contexts)[c := Answer(old(contexts[c]), id)]
    {
      var keys := contexts[c].envelopes.Keys;
      while keys != {}
        invariant contexts == old(contexts) && keys <= contexts[c].envelopes.Keys
        invariant forall k | Holds(contexts[c], k, id) :: k in keys
      {
        var key :| key in keys;
        var index := InArray(id, Split(key, ','));
        if index >= 0 {
          AnswerUnique(contexts[c], key, id);
          SpliceKey(c, key, id, index);
          return;
        }
        keys := keys - {key};
      }
    }

    method SpliceKey(c: nat, key: string, id: string, index: nat)
      requires c < |contexts| && key in contexts[c].envelopes
      requires index < |Split(key, ',')| && Split(key, ',')[index] == id && id !in Split(key, ',')[..index]
      modifies this`contexts
      ensures Holds(old(contexts[c]), key, id)
      ensures contexts == old(contexts)[c := AnswerUnder(old(contexts[c]), key, id)]
    {
      var ids := Split(key, ',');
      SpliceRemoves(ids, id, index);
      ids := ids[..index] + ids[index + 1..];
      var stored := contexts[c].envelopes[key];
      var envelopes := contexts[c].envelopes - {key};
      if |ids| > 0 {
        envelopes := envelopes[Join(ids, ',') := stored];
      }
      contexts := contexts[c := contexts[c].(envelopes := envelopes)];
    }

    method OnClose(c: nat)
      requires c < |contexts| && Partitioned(contexts[c])
      modifies this`contexts, this`context, this`connecting, this`failed
      ensures View() == Close(old(View()), c)
    {
      if SameContext(c) {
        connecting := None;
        context := None;
      }
      var x := contexts[c];
      contexts := contexts[c := NEW_CONTEXT];
      FailEnvelopes(x);
    }

    /** Every envelope that was still there is reported once, in whatever order the keys come. */
    method FailEnvelopes(x: Context)
      requires Partitioned(x)
      modifies this`failed
      ensures multiset(failed) == old(multiset(failed)) + multiset(Numbers(x))
    {
      ghost var told: set<nat> := {};
      var keys := x.envelopes.Keys;
      while keys != {}
        invariant keys <= x.envelopes.Keys
        invariant told == set k | k in x.envelopes && k !in keys :: x.envelopes[k].envelope.number
        invariant multiset(failed) == old(multiset(failed)) + multiset(told)
      {
        var key :| key in keys;
        var number := x.envelopes[key].envelope.number;
        assert number !in told;
        failed := failed + [number];
        keys := keys - {key};
        assert multiset(told + {number}) == multiset(told) + multiset{number};
        told := told + {number};
      }
      assert told == Numbers(x);
    }

    /** The server may never answer a close, so the context is closed here and now. */
    method ForceClose(c: Option<nat>)
      requires c.Some? ==> c.value < |contexts| && Partitioned(contexts[c.value])
      modifies this`contexts, this`context, this`connecting, this`failed
      ensures View() == if c.Some? then Close(old(View()), c.value) else old(View())
    {
      if c.Some? {
        OnClose(c.value);
      }
    }

    method ResetTransport()
      modifies this`context, this`connecting
      ensures View() == Reset(old(View()))
    {
      context, connecting := None, None;
    }

    method AbortTransport()
      requires Inv(View())
      modifies this
      ensures View() == Step(old(View()), Aborts)
    {
      assert context.Some? ==> AccountedAt(View(), context.value);
      ForceClose(context);
      ResetTransport();
    }
  }
}
