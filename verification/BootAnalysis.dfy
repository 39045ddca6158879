/** The scan output as the object that `scan` and `analyzeService` mutate. */
module BootAnalysis {
  import opened InjectionGraph
  import opened Utils
  import opened BootOrder
  import opened ServiceLists

  /** An entry of `seens`, or the result of reading an array: None stands for undefined. */
  datatype Slot = Undefined | Defined(service: Service)

  function At(xs: seq<Service>, i: nat): Slot {
    if i < |xs| then Defined(xs[i]) else Undefined
  }

  function Values(seens: seq<Slot>): set<Service> {
    set s | s in seens && s.Defined? :: s.service
  }

  function Without(xs: seq<Service>, i: nat): seq<Service> {
    if i < |xs| then xs[..i] + xs[i + 1..] else xs
  }

  function Count(layers: seq<seq<Service>>): nat {
    |Flatten(layers)|
  }

  // ------------------------------------------------------------------- splicing one layer

  /** Dropping known services from inside a layer changes neither its dedup nor what it adds. */
  lemma DropKnown(a: seq<Service>, dropped: seq<Service>, b: seq<Service>, seen: set<Service>)
    requires Elems(dropped) <= seen + Elems(a)
    ensures Dedup(a + dropped + b, seen) == Dedup(a + b, seen)
    ensures seen + Elems(a + dropped + b) == seen + Elems(a + b)
  {
    DedupAppend(a, dropped, seen);
    DedupAppend(a + dropped, b, seen);
    DedupAppend(a, b, seen);
    AllKnown(dropped, seen + Elems(a));
    assert seen + Elems(a + dropped) == seen + Elems(a);
    assert Elems(a + dropped + b) == Elems(a) + Elems(dropped) + Elems(b);
    assert Elems(a + b) == Elems(a) + Elems(b);
  }

  lemma {:induction false} AllKnown(xs: seq<Service>, seen: set<Service>)
    requires Elems(xs) <= seen
    ensures Dedup(xs, seen) == []
  {
    if xs != [] {
      assert xs[0] in Elems(xs);
      forall x | x in Elems(xs[1..]) ensures x in seen {
        assert x in Elems(xs);
      }
      AllKnown(xs[1..], seen);
    }
  }

  /** A layer may be replaced by one with the same dedup and the same contribution. */
  lemma {:induction false} ReplaceLayer(layers: seq<seq<Service>>, l: nat, xs: seq<Service>, seen: set<Service>)
    requires l < |layers|
    requires var s := seen + Elems(Flatten(layers[..l]));
             Dedup(xs, s) == Dedup(layers[l], s) && s + Elems(xs) == s + Elems(layers[l])
    ensures DedupLayers(layers[l := xs], seen) == DedupLayers(layers, seen)
  {
    if l == 0 {
      assert seen + Elems(Flatten(layers[..0])) == seen;
      assert layers[0 := xs][1..] == layers[1..];
    } else {
      assert layers[..l][1..] == layers[1..][..l - 1];
      assert Elems(Flatten(layers[..l])) == Elems(layers[0]) + Elems(Flatten(layers[1..][..l - 1]));
      assert seen + Elems(Flatten(layers[..l])) == seen + Elems(layers[0]) + Elems(Flatten(layers[1..][..l - 1]));
      ReplaceLayer(layers[1..], l - 1, xs, seen + Elems(layers[0]));
      assert layers[l := xs][1..] == layers[1..][l - 1 := xs];
    }
  }

  lemma CountReplaced(layers: seq<seq<Service>>, l: nat, xs: seq<Service>)
    requires l < |layers|
    ensures Count(layers[l := xs]) == Count(layers) - |layers[l]| + |xs|
  {
    assert layers == layers[..l] + [layers[l]] + layers[l + 1..];
    assert layers[l := xs] == layers[..l] + [xs] + layers[l + 1..];
    FlattenAppend(layers[..l], [layers[l]]);
    FlattenAppend(layers[..l] + [layers[l]], layers[l + 1..]);
    FlattenAppend(layers[..l], [xs]);
    FlattenAppend(layers[..l] + [xs], layers[l + 1..]);
    FlattenOne(layers[l]);
    FlattenOne(xs);
  }

  lemma PrefixGrows(layers: seq<seq<Service>>, l: nat)
    requires l < |layers|
    ensures Elems(Flatten(layers[..l + 1])) == Elems(Flatten(layers[..l])) + Elems(layers[l])
  {
    assert layers[..l + 1] == layers[..l] + [layers[l]];
    FlattenAppend(layers[..l], [layers[l]]);
    FlattenOne(layers[l]);
  }

  /** Layers whose flattening repeats nothing are their own dedup. */
  lemma {:induction false} FixpointIsDedup(layers: seq<seq<Service>>, seen: set<Service>)
    requires forall l | 0 <= l < |layers| ::
               Dedup(layers[l], seen + Elems(Flatten(layers[..l]))) == layers[l]
    ensures DedupLayers(layers, seen) == layers
  {
    if layers != [] {
      assert seen + Elems(Flatten(layers[..0])) == seen;
      forall l | 0 <= l < |layers[1..]|
        ensures Dedup(layers[1..][l], seen + Elems(layers[0]) + Elems(Flatten(layers[1..][..l]))) == layers[1..][l]
      {
        assert layers[..l + 1][1..] == layers[1..][..l];
        assert seen + Elems(layers[0]) + Elems(Flatten(layers[1..][..l])) == seen + Elems(Flatten(layers[..l + 1]));
        assert Dedup(layers[l + 1], seen + Elems(Flatten(layers[..l + 1]))) == layers[l + 1];
      }
      FixpointIsDedup(layers[1..], seen + Elems(layers[0]));
    }
  }

  /** Replacing layer l by one that drops only known services. */
  lemma SpliceKeepsDedup(layers: seq<seq<Service>>, l: nat, i: nat, k: nat)
    requires l < |layers| && i + k <= |layers[l]|
    requires Elems(layers[l][i..i + k]) <= Elems(Flatten(layers[..l])) + Elems(layers[l][..i])
    ensures var xs := layers[l][..i] + layers[l][i + k..];
            && DedupLayers(layers[l := xs], {}) == DedupLayers(layers, {})
            && Count(layers[l := xs]) == Count(layers) - k
  {
    var s := {} + Elems(Flatten(layers[..l]));
    var a, dropped, b := layers[l][..i], layers[l][i..i + k], layers[l][i + k..];
    assert layers[l] == a + dropped + b;
    DropKnown(a, dropped, b, s);
    ReplaceLayer(layers, l, a + b, {});
    CountReplaced(layers, l, a + b);
  }

  /** Where the sweep of one layer stands before it visits position `api`. */
  ghost predicate Swept(before: seq<seq<Service>>, now: seq<seq<Service>>, layer: nat, api: nat,
                        known: set<Service>, matchs: nat)
    requires layer < |before| == |now|
  {
    var xs := now[layer];
    var visited := Visited(xs, api);
    var above := Elems(Flatten(before[..layer]));
    && now == before[layer := xs]
    && DedupLayers(now, {}) == DedupLayers(before, {})
    && known == above + Elems(visited)
    && (if matchs == 0 then now == before && Dedup(visited, above) == visited else Count(now) < Count(before))
  }

  lemma SweepStarts(layers: seq<seq<Service>>, layer: nat)
    requires layer < |layers|
    ensures Swept(layers, layers, layer, 0, Elems(Flatten(layers[..layer])), 0)
  {
    assert Elems(Flatten(layers[..layer])) + Elems([]) == Elems(Flatten(layers[..layer]));
  }

  /** One visit: k known services are spliced away at `api`, and what then stands there becomes known. */
  lemma SweepStep(before: seq<seq<Service>>, now: seq<seq<Service>>, next: seq<seq<Service>>, layer: nat, api: nat,
                  known: set<Service>, matchs: nat, m: nat, k: nat)
    requires layer < |before| == |now| && api < |now[layer]| && api + k <= |now[layer]|
    requires Swept(before, now, layer, api, known, matchs)
    requires Elems(now[layer][api..api + k]) <= known
    requires (m == 0 <==> k == 0) && (k == 0 ==> now[layer][api] !in known)
    requires next == now[layer := now[layer][..api] + now[layer][api + k..]]
    ensures var known' := known + (if api < |next[layer]| then {next[layer][api]} else {});
            Swept(before, next, layer, api + 1, known', matchs + m)
  {
    var xs := next[layer];
    assert next == before[layer := xs];
    VisitedGrows(now[layer], xs, api);
    if matchs + m == 0 {
      assert xs == now[layer];
      assert next == now;
      UnmatchedVisit(xs, api, Elems(Flatten(before[..layer])));
    } else {
      assert now[..layer] == before[..layer];
      SplicedKeeps(now, next, layer, api, k, known);
    }
  }

  lemma SplicedKeeps(now: seq<seq<Service>>, next: seq<seq<Service>>, layer: nat, api: nat, k: nat, known: set<Service>)
    requires layer < |now| && api + k <= |now[layer]| && Elems(now[layer][api..api + k]) <= known
    requires known == Elems(Flatten(now[..layer])) + Elems(Visited(now[layer], api))
    requires next == now[layer := now[layer][..api] + now[layer][api + k..]]
    ensures DedupLayers(next, {}) == DedupLayers(now, {}) && Count(next) == Count(now) - k
  {
    assert Visited(now[layer], api) == now[layer][..api];
    SpliceKeepsDedup(now, layer, api, k);
  }

  function Visited(xs: seq<Service>, api: nat): seq<Service> {
    if api < |xs| then xs[..api] else xs
  }

  lemma VisitedGrows(was: seq<Service>, xs: seq<Service>, api: nat)
    requires api < |was| && api <= |xs| && xs[..api] == was[..api]
    ensures Elems(Visited(xs, api + 1)) == Elems(Visited(was, api)) + (if api < |xs| then {xs[api]} else {})
  {
    if api < |xs| {
      assert Visited(xs, api + 1) == xs[..api] + [xs[api]];
    } else {
      assert xs[..api] == xs;
    }
  }

  lemma UnmatchedVisit(xs: seq<Service>, api: nat, above: set<Service>)
    requires api < |xs| && Dedup(xs[..api], above) == xs[..api] && xs[api] !in above + Elems(xs[..api])
    ensures Dedup(Visited(xs, api + 1), above) == Visited(xs, api + 1)
  {
    assert Visited(xs, api + 1) == xs[..api] + [xs[api]];
    DedupAppend(xs[..api], [xs[api]], above);
    assert [xs[api]][1..] == [];
  }

  lemma UniqueLists(g: Graph, exposed: seq<Service>)
    requires Acyclic(g)
    ensures var out := ScanExposed(g, exposed, Empty());
            var custom, platform := Dedup(out.custom, {}), Dedup(out.platform, {});
            && NoRepeats(custom) && NoRepeats(platform)
            && (forall s :: s in platform <==> s in g.platform && (s in exposed || Asked(g, exposed, s)))
            && (forall s :: s in custom <==>
                  (s in exposed && s !in g.platform) || (Asked(g, exposed, s) && Booted(g, s)))
  {
    var out := ScanExposed(g, exposed, Empty());
    ListsAreRight(g, exposed);
    DedupKeeps(out.custom, {});
    DedupKeeps(out.platform, {});
    forall s ensures (s in Dedup(out.custom, {}) <==> s in out.custom)
                  && (s in Dedup(out.platform, {}) <==> s in out.platform) {
      assert s in Elems(Dedup(out.custom, {})) <==> s in Elems(out.custom);
      assert s in Elems(Dedup(out.platform, {})) <==> s in Elems(out.platform);
    }
  }

  class ScanOutput {
    var custom: seq<Service>
    var platform: seq<Service>
    var bootLayer: seq<seq<Service>>

    constructor ()
      ensures View() == Empty()
    {
      custom, platform, bootLayer := [], [], [];
    }

    function View(): Output
      reads this
    {
      Output(custom, platform, bootLayer)
    }

    method RegisterInBootLayers(types: seq<Service>, layer: nat)
      modifies this`bootLayer
      ensures bootLayer == Register(old(bootLayer), types, layer)
    {
      if layer >= |bootLayer| {
        bootLayer := bootLayer + [types];
      } else {
        bootLayer := bootLayer[layer := bootLayer[layer] + types];
      }
    }

    method RegisterCloudService(g: Graph, s: Service)
      modifies this`custom, this`platform
      ensures View() == RegisterService(g, s, old(View()))
    {
      if s in g.platform {
        platform := platform + [s];
      } else {
        custom := custom + [s];
      }
    }

    /** The loop over the injection metadata of one service. */
    method ClassifyParams(g: Graph, metadata: seq<Param>) returns (toScan: seq<Service>, addToScan: seq<Service>)
      modifies this`custom, this`platform
      ensures toScan == ToScan(g, metadata) && addToScan == ToBoot(g, metadata)
      ensures custom == old(custom) + ToBoot(g, metadata)
      ensures platform == old(platform) + PlatformOf(g, metadata)
    {
      toScan, addToScan := [], [];
      for i := 0 to |metadata|
        invariant addToScan + ToBoot(g, metadata[i..]) == ToBoot(g, metadata)
        invariant toScan + ToScan(g, metadata[i..]) == ToScan(g, metadata)
        invariant custom == old(custom) + addToScan
        invariant platform + PlatformOf(g, metadata[i..]) == old(platform) + PlatformOf(g, metadata)
      {
        assert metadata[i..][0] == metadata[i] && metadata[i..][1..] == metadata[i + 1..];
        match metadata[i]
        case NotAFunction =>
        case Class(provider) =>
          if HasInjection(g, provider) {
            toScan := toScan + [provider];
            custom := custom + [provider];
            addToScan := addToScan + [provider];
          } else if provider in g.platform {
            platform := platform + [provider];
          } else {
            custom := custom + [provider];
            addToScan := addToScan + [provider];
          }
      }
      assert metadata[|metadata|..] == [];
    }

    /** One visit of a service: classify its parameters, register them, scan those with injection, then itself. */
    method ScanService(g: Graph, c: Service, layer: nat)
      requires Acyclic(g)
      modifies this
      ensures View() == Scan(g, c, old(View()), layer)
      decreases Rank(g, c), 1, 0
    {
      var toScan, addToScan := ClassifyParams(g, Params(g, c));
      RegisterInBootLayers(addToScan, layer);
      ToScanAreEdges(g, Params(g, c));
      assert View() == ScanParams(g, c, old(View()), layer);
      ScanDependencies(g, c, toScan, layer + 1);
      RegisterCloudService(g, c);
      RegisterInBootLayers([c], layer);
    }

    method ScanDependencies(g: Graph, c: Service, toScan: seq<Service>, layer: nat)
      requires Acyclic(g) && forall d | d in toScan :: Edge(g, c, d)
      modifies this
      ensures View() == ScanEach(g, c, toScan, old(View()), layer)
      decreases Rank(g, c), 0, |toScan|
    {
      for i := 0 to |toScan|
        invariant ScanEach(g, c, toScan[i..], View(), layer) == ScanEach(g, c, toScan, old(View()), layer)
      {
        assert toScan[i..][1..] == toScan[i + 1..] && toScan[i] in toScan;
        RankDecreases(g, c, toScan[i]);
        ScanService(g, toScan[i], layer);
      }
    }

    /** The innermost loop: compare the element at `api` with each seen one, splicing on a match.
        The element read is whatever has moved to `api`, and undefined once the layer has run out. */
    method SpliceSeen(layer: nat, api: nat, seens: seq<Slot>) returns (matchs: nat, ghost k: nat)
      requires layer < |bootLayer| && api < |bootLayer[layer]|
      modifies this`bootLayer
      ensures var was := old(bootLayer[layer]);
              && api + k <= |was|
              && bootLayer == old(bootLayer)[layer := was[..api] + was[api + k..]]
              && Elems(was[api..api + k]) <= Values(seens)
              && (matchs == 0 <==> k == 0)
              && (k == 0 ==> was[api] !in Values(seens))
    {
      ghost var was := bootLayer[layer];
      matchs, k := 0, 0;
      assert was == was[..api] + was[api..];
      for j := 0 to |seens|
        invariant api + k <= |was|
        invariant |bootLayer| == |old(bootLayer)|
        invariant bootLayer == old(bootLayer)[layer := was[..api] + was[api + k..]]
        invariant Elems(was[api..api + k]) <= Values(seens)
        invariant matchs == 0 <==> k == 0
        invariant k == 0 ==> Defined(was[api]) !in seens[..j]
      {
        var xs := bootLayer[layer];
        assert k == 0 ==> xs == was;
        if seens[j] == At(xs, api) {
          bootLayer := bootLayer[layer := Without(xs, api)];
          matchs := matchs + 1;
          if api < |xs| {
            assert xs[api] == was[api + k];
            assert seens[j].service in Values(seens);
            assert was[api..api + k + 1] == was[api..api + k] + [was[api + k]];
            assert Without(xs, api) == was[..api] + was[api + k + 1..];
            k := k + 1;
          }
        }
        assert seens[..j + 1] == seens[..j] + [seens[j]];
      }
      assert seens[..|seens|] == seens;
    }

    /** The loop over one layer. The keys are those the layer had at the start; a key spliced away is skipped. */
    method SweepLayer(layer: nat, seens: seq<Slot>) returns (seens': seq<Slot>, matchs: nat)
      requires layer < |bootLayer|
      requires Values(seens) == Elems(Flatten(bootLayer[..layer]))
      modifies this`bootLayer
      ensures |bootLayer| == |old(bootLayer)|
      ensures Values(seens') == Elems(Flatten(bootLayer[..layer + 1]))
      ensures Swept(old(bootLayer), bootLayer, layer, |bootLayer[layer]|, Values(seens'), matchs)
    {
      var keys := |bootLayer[layer]|;
      seens', matchs := seens, 0;
      SweepStarts(bootLayer, layer);
      for api := 0 to keys
        invariant |bootLayer| == |old(bootLayer)|
        invariant |bootLayer[layer]| <= keys
        invariant Swept(old(bootLayer), bootLayer, layer, api, Values(seens'), matchs)
      {
        if api < |bootLayer[layer]| {
          ghost var was := bootLayer;
          var m, k := SpliceSeen(layer, api, seens');
          SweepStep(old(bootLayer), was, bootLayer, layer, api, Values(seens'), matchs, m, k);
          matchs := matchs + m;
          seens' := seens' + [At(bootLayer[layer], api)];
        }
      }
      PrefixGrows(bootLayer, layer);
      assert bootLayer[..layer] == old(bootLayer)[..layer];
    }

    /** One pass over all layers. */
    method Sweep() returns (matchs: nat)
      modifies this`bootLayer
      ensures DedupLayers(bootLayer, {}) == DedupLayers(old(bootLayer), {})
      ensures matchs > 0 ==> Count(bootLayer) < Count(old(bootLayer))
      ensures matchs == 0 ==> bootLayer == DedupLayers(bootLayer, {})
    {
      var seens: seq<Slot> := [];
      matchs := 0;
      for layer := 0 to |bootLayer|
        invariant |bootLayer| == |old(bootLayer)|
        invariant DedupLayers(bootLayer, {}) == DedupLayers(old(bootLayer), {})
        invariant Values(seens) == Elems(Flatten(bootLayer[..layer]))
        invariant matchs > 0 ==> Count(bootLayer) < Count(old(bootLayer))
        invariant matchs == 0 ==> bootLayer == old(bootLayer)
        invariant matchs == 0 ==> forall l | 0 <= l < layer ::
                    Dedup(bootLayer[l], Elems(Flatten(bootLayer[..l]))) == bootLayer[l]
      {
        var m;
        seens, m := SweepLayer(layer, seens);
        matchs := matchs + m;
      }
      if matchs == 0 {
        forall l | 0 <= l < |bootLayer|
          ensures Dedup(bootLayer[l], {} + Elems(Flatten(bootLayer[..l]))) == bootLayer[l]
        {
          assert {} + Elems(Flatten(bootLayer[..l])) == Elems(Flatten(bootLayer[..l]));
        }
        FixpointIsDedup(bootLayer, {});
      }
    }

    /** Sweeping until a pass finds no match keeps exactly the first occurrence of every service. */
    method RemoveDuplicates()
      modifies this`bootLayer
      ensures bootLayer == DedupLayers(old(bootLayer), {})
    {
      var matchs: int := -1;
      while matchs != 0
        invariant DedupLayers(bootLayer, {}) == DedupLayers(old(bootLayer), {})
        invariant matchs >= -1
        invariant matchs == 0 ==> bootLayer == DedupLayers(bootLayer, {})
        decreases matchs != 0, Count(bootLayer)
      {
        matchs := Sweep();
      }
    }

    /** analyzeService on a fresh output: scan the exposed services, reverse the layers, append, de-duplicate.
        The two lists of services keep the first occurrence of each, as a JavaScript Set does. */
    method AnalyzeService(g: Graph, exposed: seq<Service>)
      requires Acyclic(g) && View() == Empty()
      modifies this
      ensures bootLayer == BootLayers(g, exposed)
      ensures custom == Dedup(ScanExposed(g, exposed, Empty()).custom, {})
      ensures platform == Dedup(ScanExposed(g, exposed, Empty()).platform, {})
      ensures NoRepeats(custom) && NoRepeats(platform)
      ensures forall s :: s in platform <==> s in g.platform && (s in exposed || Asked(g, exposed, s))
      ensures forall s :: s in custom <==>
                (s in exposed && s !in g.platform) || (Asked(g, exposed, s) && Booted(g, s))
    {
      var services: seq<Service> := [];
      for i := 0 to |exposed|
        invariant services == exposed[..i]
        invariant ScanExposed(g, exposed[i..], View()) == ScanExposed(g, exposed, Empty())
      {
        assert exposed[i..][1..] == exposed[i + 1..];
        ScanService(g, exposed[i], 0);
        services := services + [exposed[i]];
      }
      assert exposed[|exposed|..] == [] && services == exposed;
      bootLayer := Reverse(bootLayer);
      bootLayer := bootLayer + [services];
      RemoveDuplicates();
      MakeUnique(g, exposed);
    }

    /** The two lists of services, without repetitions. */
    method MakeUnique(ghost g: Graph, ghost exposed: seq<Service>)
      requires Acyclic(g)
      requires custom == ScanExposed(g, exposed, Empty()).custom
      requires platform == ScanExposed(g, exposed, Empty()).platform
      modifies this`custom, this`platform
      ensures custom == Dedup(old(custom), {}) && platform == Dedup(old(platform), {})
      ensures NoRepeats(custom) && NoRepeats(platform)
      ensures forall s :: s in platform <==> s in g.platform && (s in exposed || Asked(g, exposed, s))
      ensures forall s :: s in custom <==>
                (s in exposed && s !in g.platform) || (Asked(g, exposed, s) && Booted(g, s))
    {
      custom := Dedup(custom, {});
      platform := Dedup(platform, {});
      UniqueLists(g, exposed);
    }
  }
}
