/** Splitting a list of messages into requests whose URL stays within a limit. */
module UrlSplitting {
  import opened Wrappers
  import opened Utils

  /** `encoded` is the length of the message as URL-encoded JSON. */
  datatype Message = Message(id: nat, encoded: nat)

  function Total(ms: seq<Message>): nat {
    if ms == [] then 0 else ms[0].encoded + Total(ms[1..])
  }

  /** The URL-encoded JSON array: two brackets of three characters each, and a comma between messages. */
  function EncodedArray(ms: seq<Message>): nat {
    6 + Total(ms) + if ms == [] then 0 else |ms| - 1
  }

  predicate Fits(url: nat, max: nat, ms: seq<Message>) {
    url + EncodedArray(ms) <= max
  }

  /** One message costs its brackets, and two arrays in one save a pair of them for a comma. */
  lemma EncodedTogether(a: seq<Message>, b: seq<Message>, m: Message)
    ensures EncodedArray([m]) == 6 + m.encoded
    ensures a != [] && b != [] ==> EncodedArray(a + b) == EncodedArray(a) + EncodedArray(b) - 6 + 1
  {
    assert [m][1..] == [] && Total([m]) == m.encoded + Total([m][1..]) == m.encoded;
    TotalAppend(a, b);
  }

  /** The chunks of ms of the given lengths. */
  function Chunks(ms: seq<Message>, lengths: seq<nat>): seq<seq<Message>>
    requires Sum(lengths) <= |ms|
  {
    if lengths == [] then [] else [ms[..lengths[0]]] + Chunks(ms[lengths[0]..], lengths[1..])
  }

  /** Contiguous non-empty chunks that cover ms and fit. */
  ghost predicate Partition(url: nat, max: nat, ms: seq<Message>, lengths: seq<nat>) {
    if ms == [] then lengths == []
    else
      && lengths != [] && 0 < lengths[0] <= |ms|
      && Fits(url, max, ms[..lengths[0]])
      && Partition(url, max, ms[lengths[0]..], lengths[1..])
  }

  /** A partition whose every chunk is the longest that fits where it starts. */
  ghost predicate Greedy(url: nat, max: nat, ms: seq<Message>, lengths: seq<nat>) {
    if ms == [] then lengths == []
    else
      && lengths != [] && 0 < lengths[0] <= |ms|
      && Fits(url, max, ms[..lengths[0]])
      && (forall l | lengths[0] < l <= |ms| :: !Fits(url, max, ms[..l]))
      && Greedy(url, max, ms[lengths[0]..], lengths[1..])
  }

  lemma {:induction false} GreedyIsPartition(url: nat, max: nat, ms: seq<Message>, lengths: seq<nat>)
    requires Greedy(url, max, ms, lengths)
    ensures Partition(url, max, ms, lengths) && Sum(lengths) == |ms|
    decreases |ms|
  {
    if ms != [] {
      GreedyIsPartition(url, max, ms[lengths[0]..], lengths[1..]);
    }
  }

  lemma {:induction false} TotalAppend(a: seq<Message>, b: seq<Message>)
    ensures Total(a + b) == Total(a) + Total(b)
  {
    if a == [] {
      assert a + b == b;
    } else {
      TotalAppend(a[1..], b);
      assert (a + b)[1..] == a[1..] + b;
    }
  }

  /** A slice of what fits, fits. */
  lemma FitsMonotone(url: nat, max: nat, ms: seq<Message>, i: nat, j: nat)
    requires i <= j <= |ms| && Fits(url, max, ms)
    ensures Fits(url, max, ms[i..j])
  {
    TotalAppend(ms[..i], ms[i..]);
    assert ms == ms[..i] + ms[i..];
    TotalAppend(ms[i..j], ms[j..]);
    assert ms[i..] == ms[i..j] + ms[j..];
  }

  /** No other way to cut the messages, or a longer list that ends with them, needs fewer chunks. */
  lemma {:induction false} GreedyStaysAhead(url: nat, max: nat, all: seq<Message>, d: nat, g: seq<nat>, p: seq<nat>)
    requires d <= |all| && Greedy(url, max, all[d..], g) && Partition(url, max, all, p)
    ensures |g| <= |p|
    decreases |p|
  {
    var ms := all[d..];
    if ms != [] {
      var a := p[0];
      if a <= d {
        assert all[a..][d - a..] == ms;
        GreedyStaysAhead(url, max, all[a..], d - a, g, p[1..]);
      } else {
        FitsMonotone(url, max, all[..a], d, a);
        assert all[..a][d..a] == ms[..a - d];
        assert g[0] >= a - d;
        assert all[a..][d + g[0] - a..] == ms[g[0]..];
        GreedyStaysAhead(url, max, all[a..], d + g[0] - a, g[1..], p[1..]);
      }
    }
  }

  /** The greedy cut uses the fewest chunks possible. */
  lemma GreedyIsOptimal(url: nat, max: nat, ms: seq<Message>, g: seq<nat>, p: seq<nat>)
    requires Greedy(url, max, ms, g) && Partition(url, max, ms, p)
    ensures |g| <= |p|
  {
    assert ms[0..] == ms;
    GreedyStaysAhead(url, max, ms, 0, g, p);
  }

  /** The chunks are the messages, in order. */
  lemma {:induction false} ChunksConcat(ms: seq<Message>, lengths: seq<nat>)
    requires Sum(lengths) == |ms|
    ensures Flatten(Chunks(ms, lengths)) == ms && |Chunks(ms, lengths)| == |lengths|
  {
    if lengths != [] {
      ChunksConcat(ms[lengths[0]..], lengths[1..]);
      assert Chunks(ms, lengths)[1..] == Chunks(ms[lengths[0]..], lengths[1..]);
    }
  }

  /** Every cut so far is the longest that fits: what the loop knows of the messages before `start`. */
  ghost predicate GreedyUpTo(url: nat, max: nat, ms: seq<Message>, lengths: seq<nat>, start: nat)
    requires start <= |ms|
  {
    forall rest :: Greedy(url, max, ms[start..], rest) ==> Greedy(url, max, ms, lengths + rest)
  }

  lemma GreedyUpToNext(url: nat, max: nat, ms: seq<Message>, lengths: seq<nat>, start: nat, length: nat)
    requires start + length <= |ms| && 0 < length && GreedyUpTo(url, max, ms, lengths, start)
    requires Fits(url, max, ms[start..][..length])
    requires forall l | length < l <= |ms| - start :: !Fits(url, max, ms[start..][..l])
    ensures GreedyUpTo(url, max, ms, lengths + [length], start + length)
  {
    forall rest | Greedy(url, max, ms[start + length..], rest)
      ensures Greedy(url, max, ms, lengths + [length] + rest)
    {
      assert ms[start..][length..] == ms[start + length..];
      assert ([length] + rest)[1..] == rest;
      assert Greedy(url, max, ms[start..], [length] + rest);
      assert lengths + ([length] + rest) == lengths + [length] + rest;
    }
  }

  lemma GreedyUpToEnds(url: nat, max: nat, ms: seq<Message>, lengths: seq<nat>)
    ensures GreedyUpTo(url, max, ms, [], 0)
    ensures GreedyUpTo(url, max, ms, lengths, |ms|) ==> Greedy(url, max, ms, lengths)
  {
    assert ms[0..] == ms && ms[|ms|..] == [];
    forall rest | Greedy(url, max, ms[0..], rest) ensures Greedy(url, max, ms, [] + rest) {
      assert [] + rest == rest;
    }
    assert Greedy(url, max, ms[|ms|..], []);
    assert lengths + [] == lengths;
  }

  lemma MembersFit(url: nat, max: nat, ms: seq<Message>, start: nat, end: nat)
    requires start <= end <= |ms| && Fits(url, max, ms[start..end])
    ensures forall i | start <= i < end :: Fits(url, max, [ms[i]])
  {
    forall i | start <= i < end ensures Fits(url, max, [ms[i]]) {
      FitsMonotone(url, max, ms[start..end], i - start, i - start + 1);
      assert ms[start..end][i - start..i - start + 1] == [ms[i]];
    }
  }

  /** The loop that measures the chunks, from the longest candidate down; it fails, before anything is sent,
      exactly when some message is too long on its own. */
  method MeasureChunks(url: nat, max: nat, messages: seq<Message>) returns (r: Result<seq<nat>, nat>)
    ensures r.Ok? ==> Greedy(url, max, messages, r.value)
    ensures r.Err? ==> r.error < |messages| && !Fits(url, max, [messages[r.error]])
    ensures r.Err? ==> forall i | 0 <= i < r.error :: Fits(url, max, [messages[i]])
    ensures r.Err? <==> exists i :: 0 <= i < |messages| && !Fits(url, max, [messages[i]])
  {
    var start: nat, length: nat := 0, |messages|;
    var lengths: seq<nat> := [];
    GreedyUpToEnds(url, max, messages, []);
    assert messages[0..][..|messages|] == messages;
    while length > 0
      invariant start + length <= |messages|
      invariant length == 0 ==> start == |messages|
      invariant GreedyUpTo(url, max, messages, lengths, start)
      invariant forall l | length < l <= |messages| - start :: !Fits(url, max, messages[start..][..l])
      invariant forall i | 0 <= i < start :: Fits(url, max, [messages[i]])
      decreases |messages| - start, length
    {
      assert messages[start..start + length] == messages[start..][..length];
      var urlLength := url + EncodedArray(messages[start..start + length]);
      if urlLength > max {
        if length == 1 {
          assert messages[start..start + 1] == [messages[start]];
          return Err(start);
        }
        length := length - 1;
        continue;
      }
      MembersFit(url, max, messages, start, start + length);
      GreedyUpToNext(url, max, messages, lengths, start, length);
      lengths := lengths + [length];
      start := start + length;
      length := |messages| - start;
    }
    GreedyUpToEnds(url, max, messages, lengths);
    return Ok(lengths);
  }

  /** The envelopes of a split: the first is returned apart, because it is transmitted after the others are queued. */
  method SliceEnvelopes(messages: seq<Message>, lengths: seq<nat>) returns (first: seq<Message>,
                        rest: seq<seq<Message>>)
    requires Sum(lengths) == |messages|
    ensures [first] + rest == if |lengths| > 1 then Chunks(messages, lengths) else [messages]
    ensures Flatten([first] + rest) == messages
  {
    first, rest := messages, [];
    ChunksConcat(messages, lengths);
    if |lengths| > 1 {
      var begin, end := 0, lengths[0];
      first := messages[begin..end];
      assert lengths[1..] == lengths[1..];
      for i := 1 to |lengths|
        invariant 0 <= begin <= end && end + Sum(lengths[i..]) == |messages|
        invariant [first] + rest + Chunks(messages[end..], lengths[i..]) == Chunks(messages, lengths)
      {
        assert lengths[i..][1..] == lengths[i + 1..];
        begin := end;
        end := end + lengths[i];
        assert messages[begin..][lengths[i]..] == messages[end..];
        assert messages[begin..][..lengths[i]] == messages[begin..end];
        rest := rest + [messages[begin..end]];
      }
      assert lengths[|lengths|..] == [];
    } else {
      assert [messages][1..] == [];
      assert [first] + rest == [messages];
    }
  }

  /** The whole of the splitting: nothing is sent unless every message fits, and then the envelopes are the
      messages in order, each within the limit, and no cut into contiguous chunks needs fewer. */
  method SplitForUrl(url: nat, max: nat, messages: seq<Message>) returns (r: Result<seq<seq<Message>>, nat>)
    ensures r.Err? <==> exists i :: 0 <= i < |messages| && !Fits(url, max, [messages[i]])
    ensures r.Err? ==> r.error < |messages| && !Fits(url, max, [messages[r.error]])
    ensures r.Err? ==> forall i | 0 <= i < r.error :: Fits(url, max, [messages[i]])
    ensures r.Ok? ==> Flatten(r.value) == messages
    ensures r.Ok? && messages != [] ==>
              forall k | 0 <= k < |r.value| :: r.value[k] != [] && Fits(url, max, r.value[k])
    ensures r.Ok? && messages != [] ==> forall p | Partition(url, max, messages, p) :: |r.value| <= |p|
    ensures messages == [] ==> r == Ok([[]])
  {
    var lengths := MeasureChunks(url, max, messages);
    if lengths.Err? {
      return Err(lengths.error);
    }
    GreedyIsPartition(url, max, messages, lengths.value);
    var first, rest := SliceEnvelopes(messages, lengths.value);
    ChunksFit(url, max, messages, lengths.value);
    ChunksConcat(messages, lengths.value);
    forall p | Partition(url, max, messages, p) ensures |lengths.value| <= |p| {
      GreedyIsOptimal(url, max, messages, lengths.value, p);
    }
    if messages != [] && |lengths.value| <= 1 {
      OneChunk(messages, lengths.value);
    }
    return Ok([first] + rest);
  }

  lemma OneChunk(ms: seq<Message>, lengths: seq<nat>)
    requires ms != [] && Sum(lengths) == |ms| && |lengths| <= 1
    ensures Chunks(ms, lengths) == [ms]
  {
    assert lengths == [lengths[0]] && lengths[1..] == [];
    assert Sum(lengths) == lengths[0] + Sum([]) && ms[..lengths[0]] == ms;
    assert Chunks(ms[lengths[0]..], lengths[1..]) == [];
  }

  lemma {:induction false} ChunksFit(url: nat, max: nat, ms: seq<Message>, lengths: seq<nat>)
    requires Partition(url, max, ms, lengths) && Sum(lengths) == |ms|
    ensures forall k | 0 <= k < |Chunks(ms, lengths)| ::
              Chunks(ms, lengths)[k] != [] && Fits(url, max, Chunks(ms, lengths)[k])
    decreases |ms|
  {
    if ms != [] {
      ChunksFit(url, max, ms[lengths[0]..], lengths[1..]);
    }
  }
}
