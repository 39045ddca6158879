/** What `scan` and `analyzeService` compute, as functions, and the order they promise. */
module BootOrder {
  import opened InjectionGraph
  import opened Utils

  /** The fields of the scan output. */
  datatype Output = Output(custom: seq<Service>, platform: seq<Service>, layers: seq<seq<Service>>)

  // ---------------------------------------------------------------------------------- scan

  /** The class parameters that go into the boot layer of their dependant, in parameter order. */
  function ToBoot(g: Graph, ps: seq<Param>): seq<Service> {
    if ps == [] then []
    else if ps[0].Class? && Booted(g, ps[0].service) then [ps[0].service] + ToBoot(g, ps[1..])
    else ToBoot(g, ps[1..])
  }

  /** The class parameters that are scanned in turn, one layer deeper. */
  function ToScan(g: Graph, ps: seq<Param>): seq<Service> {
    if ps == [] then []
    else if ps[0].Class? && HasInjection(g, ps[0].service) then [ps[0].service] + ToScan(g, ps[1..])
    else ToScan(g, ps[1..])
  }

  function PlatformOf(g: Graph, ps: seq<Param>): seq<Service> {
    if ps == [] then []
    else if ps[0].Class? && !Booted(g, ps[0].service) then [ps[0].service] + PlatformOf(g, ps[1..])
    else PlatformOf(g, ps[1..])
  }

  function Register(layers: seq<seq<Service>>, types: seq<Service>, layer: nat): seq<seq<Service>> {
    if layer < |layers| then layers[layer := layers[layer] + types] else layers + [types]
  }

  function RegisterService(g: Graph, s: Service, out: Output): Output {
    if s in g.platform then out.(platform := out.platform + [s]) else out.(custom := out.custom + [s])
  }

  function ScanParams(g: Graph, c: Service, out: Output, layer: nat): Output {
    var ps := Params(g, c);
    Output(out.custom + ToBoot(g, ps), out.platform + PlatformOf(g, ps),
           Register(out.layers, ToBoot(g, ps), layer))
  }

  function Scan(g: Graph, c: Service, out: Output, layer: nat): Output
    requires Acyclic(g)
    decreases Rank(g, c), 1, 0
  {
    ToScanAreEdges(g, Params(g, c));
    var deps := ScanEach(g, c, ToScan(g, Params(g, c)), ScanParams(g, c, out, layer), layer + 1);
    var r := RegisterService(g, c, deps);
    r.(layers := Register(r.layers, [c], layer))
  }

  function ScanEach(g: Graph, c: Service, ds: seq<Service>, out: Output, layer: nat): Output
    requires Acyclic(g) && forall d | d in ds :: Edge(g, c, d)
    decreases Rank(g, c), 0, |ds|
  {
    if ds == [] then out
    else
      RankDecreases(g, c, ds[0]);
      ScanEach(g, c, ds[1..], Scan(g, ds[0], out, layer), layer)
  }

  lemma ToScanAreEdges(g: Graph, ps: seq<Param>)
    ensures forall d :: d in ToScan(g, ps) <==> Class(d) in ps && HasInjection(g, d)
  {
  }

  lemma ToBootAreEdges(g: Graph, ps: seq<Param>)
    ensures forall d :: d in ToBoot(g, ps) <==> Class(d) in ps && Booted(g, d)
  {
  }

  // ------------------------------------------------------------- what a scan leaves in the layers

  /** `after` only appends to the layers of `before`, and may add layers. */
  ghost predicate Extends(before: seq<seq<Service>>, after: seq<seq<Service>>) {
    |before| <= |after| && forall l | 0 <= l < |before| :: before[l] <= after[l]
  }

  lemma ExtendsTransitive(a: seq<seq<Service>>, b: seq<seq<Service>>, c: seq<seq<Service>>)
    requires Extends(a, b) && Extends(b, c)
    ensures Extends(a, c)
  {
    forall l | 0 <= l < |a| ensures a[l] <= c[l] {
      assert a[l] <= b[l] && b[l] <= c[l];
    }
  }

  ghost predicate Holds(layers: seq<seq<Service>>, l: int, p: int) {
    0 <= l < |layers| && 0 <= p < |layers[l]|
  }

  /** The entry's booted dependencies stand before it in its own layer, unless it is also one layer deeper. */
  ghost predicate Settled(g: Graph, layers: seq<seq<Service>>, l: int, p: int)
    requires Holds(layers, l, p)
  {
    || (l + 1 < |layers| && layers[l][p] in layers[l + 1])
    || forall d | Edge(g, layers[l][p], d) && Booted(g, d) :: d in layers[l][..p]
  }

  lemma SettledExtends(g: Graph, before: seq<seq<Service>>, after: seq<seq<Service>>, l: int, p: int)
    requires Extends(before, after) && Holds(before, l, p) && Settled(g, before, l, p)
    ensures Holds(after, l, p) && Settled(g, after, l, p)
  {
    assert before[l] <= after[l];
    assert after[l][..p] == before[l][..p];
    if l + 1 < |before| {
      assert before[l + 1] <= after[l + 1];
    }
  }

  /** Every entry that `after` has and `before` has not is settled and comes from c. */
  ghost predicate NewSettled(g: Graph, before: seq<seq<Service>>, after: seq<seq<Service>>, c: Service) {
    forall l, p | Holds(after, l, p) && !Holds(before, l, p) ::
      Settled(g, after, l, p) && From(g, c, after[l][p])
  }

  ghost predicate From(g: Graph, c: Service, s: Service) {
    s == c || (Reaches(g, c, s) && Booted(g, s))
  }

  lemma NewSettledTransitive(g: Graph, a: seq<seq<Service>>, b: seq<seq<Service>>, c: seq<seq<Service>>, s: Service)
    requires Extends(a, b) && Extends(b, c) && NewSettled(g, a, b, s) && NewSettled(g, b, c, s)
    ensures NewSettled(g, a, c, s)
  {
    forall l, p | Holds(c, l, p) && !Holds(a, l, p)
      ensures Settled(g, c, l, p) && From(g, s, c[l][p])
    {
      if Holds(b, l, p) {
        SettledExtends(g, b, c, l, p);
        assert b[l] <= c[l];
      }
    }
  }

  lemma FromThrough(g: Graph, a: seq<seq<Service>>, b: seq<seq<Service>>, c: Service, d: Service)
    requires Edge(g, c, d) && HasInjection(g, d) && NewSettled(g, a, b, d)
    ensures NewSettled(g, a, b, c)
  {
    forall l, p | Holds(b, l, p) && !Holds(a, l, p) ensures From(g, c, b[l][p]) {
      EdgeReaches(g, c, d);
      if b[l][p] != d {
        ReachesTransitive(g, c, d, b[l][p]);
      }
    }
  }

  lemma {:induction false} ScanEachSettles(g: Graph, c: Service, ds: seq<Service>, out: Output, layer: nat)
    requires Acyclic(g) && forall d | d in ds :: Edge(g, c, d) && HasInjection(g, d)
    requires layer <= |out.layers|
    ensures var r := ScanEach(g, c, ds, out, layer).layers;
            && Extends(out.layers, r)
            && NewSettled(g, out.layers, r, c)
            && forall d | d in ds :: layer < |r| && d in r[layer]
    decreases Rank(g, c), 0, |ds|
  {
    if ds != [] {
      RankDecreases(g, c, ds[0]);
      var first := Scan(g, ds[0], out, layer);
      ScanSettles(g, ds[0], out, layer);
      FromThrough(g, out.layers, first.layers, c, ds[0]);
      ScanEachSettles(g, c, ds[1..], first, layer);
      var r := ScanEach(g, c, ds, out, layer).layers;
      ExtendsTransitive(out.layers, first.layers, r);
      NewSettledTransitive(g, out.layers, first.layers, r, c);
      assert first.layers[layer] <= r[layer];
      forall d | d in ds ensures layer < |r| && d in r[layer] {
        if d != ds[0] {
          assert d in ds[1..];
        }
      }
    }
  }

  /** Registering the parameters adds them at `layer`; they settle once those with injection are one layer deeper. */
  lemma ParamsSettle(g: Graph, c: Service, out: Output, layer: nat, after: seq<seq<Service>>)
    requires layer <= |out.layers| && Extends(ScanParams(g, c, out, layer).layers, after)
    requires forall d | d in ToScan(g, Params(g, c)) :: layer + 1 < |after| && d in after[layer + 1]
    ensures var o1 := ScanParams(g, c, out, layer).layers;
            forall l, p | Holds(o1, l, p) && !Holds(out.layers, l, p) ::
              Holds(after, l, p) && Settled(g, after, l, p) && From(g, c, after[l][p])
  {
    var ps := Params(g, c);
    ToScanAreEdges(g, ps);
    ToBootAreEdges(g, ps);
    var o1 := ScanParams(g, c, out, layer).layers;
    forall l, p | Holds(o1, l, p) && !Holds(out.layers, l, p)
      ensures Holds(after, l, p) && Settled(g, after, l, p) && From(g, c, after[l][p])
    {
      assert l == layer && o1[l] <= after[l];
      assert after[l][p] == o1[l][p] && o1[l][p] in ToBoot(g, ps);
      EdgeReaches(g, c, o1[l][p]);
    }
  }

  /** Appending c itself to the layer that already holds its booted parameters settles it. */
  lemma SelfSettles(g: Graph, c: Service, layers: seq<seq<Service>>, layer: nat)
    requires layer < |layers| && forall d | Edge(g, c, d) && Booted(g, d) :: d in layers[layer]
    ensures var r := Register(layers, [c], layer);
            Extends(layers, r) && NewSettled(g, layers, r, c) && c in r[layer]
  {
    var r := Register(layers, [c], layer);
    assert r[layer][..|layers[layer]|] == layers[layer];
    forall l, p | Holds(r, l, p) && !Holds(layers, l, p)
      ensures Settled(g, r, l, p) && From(g, c, r[l][p])
    {
      assert l == layer && p == |layers[layer]|;
    }
  }

  /** A scan from layer `layer` puts c there, settles whatever it adds and moves nothing. */
  lemma {:induction false} ScanSettles(g: Graph, c: Service, out: Output, layer: nat)
    requires Acyclic(g) && layer <= |out.layers|
    ensures var r := Scan(g, c, out, layer).layers;
            && Extends(out.layers, r)
            && NewSettled(g, out.layers, r, c)
            && layer < |r| && c in r[layer]
    decreases Rank(g, c), 1, 0
  {
    var ps := Params(g, c);
    ToScanAreEdges(g, ps);
    var o1 := ScanParams(g, c, out, layer);
    var o2 := ScanEach(g, c, ToScan(g, ps), o1, layer + 1).layers;
    ScanEachSettles(g, c, ToScan(g, ps), o1, layer + 1);
    assert Extends(out.layers, o1.layers);
    ExtendsTransitive(out.layers, o1.layers, o2);
    ParamsSettle(g, c, out, layer, o2);
    assert NewSettled(g, out.layers, o2, c);
    forall d | Edge(g, c, d) && Booted(g, d) ensures d in o2[layer] {
      ToBootAreEdges(g, ps);
      assert d in o1.layers[layer] && o1.layers[layer] <= o2[layer];
    }
    SelfSettles(g, c, o2, layer);
    var r := Scan(g, c, out, layer).layers;
    assert r == Register(o2, [c], layer);
    ExtendsTransitive(out.layers, o2, r);
    NewSettledTransitive(g, out.layers, o2, r, c);
  }

  // ------------------------------------------------------------------ reversal and de-duplication

  function ScanExposed(g: Graph, exposed: seq<Service>, out: Output): Output
    requires Acyclic(g)
  {
    if exposed == [] then out else ScanExposed(g, exposed[1..], Scan(g, exposed[0], out, 0))
  }

  function Reverse(layers: seq<seq<Service>>): seq<seq<Service>> {
    if layers == [] then [] else Reverse(layers[1..]) + [layers[0]]
  }

  /** xs without the services of `seen` and without later repetitions. */
  function Dedup(xs: seq<Service>, seen: set<Service>): seq<Service> {
    if xs == [] then []
    else if xs[0] in seen then Dedup(xs[1..], seen)
    else [xs[0]] + Dedup(xs[1..], seen + {xs[0]})
  }

  /** The first occurrence of each service over all layers, layer boundaries kept. */
  function DedupLayers(layers: seq<seq<Service>>, seen: set<Service>): (r: seq<seq<Service>>)
    ensures |r| == |layers|
  {
    if layers == [] then []
    else [Dedup(layers[0], seen)] + DedupLayers(layers[1..], seen + Elems(layers[0]))
  }

  function Empty(): Output {
    Output([], [], [])
  }

  /** The boot layers of analyzeService. */
  function BootLayers(g: Graph, exposed: seq<Service>): seq<seq<Service>>
    requires Acyclic(g)
  {
    DedupLayers(Reverse(ScanExposed(g, exposed, Empty()).layers) + [exposed], {})
  }

  /** The order in which the services boot. */
  function BootSequence(g: Graph, exposed: seq<Service>): seq<Service>
    requires Acyclic(g)
  {
    Flatten(BootLayers(g, exposed))
  }

  lemma {:induction false} FlattenAppend(a: seq<seq<Service>>, b: seq<seq<Service>>)
    ensures Flatten(a + b) == Flatten(a) + Flatten(b)
  {
    if a == [] {
      assert a + b == b;
    } else {
      var rest := a[1..];
      FlattenAppend(rest, b);
      assert (a + b)[0] == a[0] && (a + b)[1..] == rest + b;
      assert Flatten(a + b) == a[0] + Flatten(rest + b);
    }
  }

  lemma {:induction false} FlattenElems(layers: seq<seq<Service>>, s: Service)
    ensures s in Flatten(layers) <==> exists l :: 0 <= l < |layers| && s in layers[l]
  {
    if layers != [] {
      FlattenElems(layers[1..], s);
      if s in layers[0] {
        assert 0 <= 0 < |layers|;
      } else if exists l :: 0 <= l < |layers| && s in layers[l] {
        var l :| 0 <= l < |layers| && s in layers[l];
        assert s in layers[1..][l - 1];
      }
      if l :| 0 <= l < |layers[1..]| && s in layers[1..][l] {
        assert s in layers[l + 1];
      }
    }
  }

  lemma {:induction false} ReverseElems(layers: seq<seq<Service>>, s: Service)
    ensures s in Flatten(Reverse(layers)) <==> s in Flatten(layers)
  {
    if layers != [] {
      ReverseElems(layers[1..], s);
      FlattenAppend(Reverse(layers[1..]), [layers[0]]);
      assert [layers[0]][1..] == [];
      assert Flatten([layers[0]]) == layers[0];
    }
  }

  /** What Dedup keeps: each service of xs that is new, once. */
  lemma {:induction false} DedupKeeps(xs: seq<Service>, seen: set<Service>)
    ensures Elems(Dedup(xs, seen)) == Elems(xs) - seen
    ensures NoRepeats(Dedup(xs, seen))
  {
    if xs != [] {
      assert Elems(xs) == {xs[0]} + Elems(xs[1..]);
      if xs[0] in seen {
        DedupKeeps(xs[1..], seen);
      } else {
        var rest := Dedup(xs[1..], seen + {xs[0]});
        DedupKeeps(xs[1..], seen + {xs[0]});
        assert xs[0] !in Elems(rest);
        assert Elems([xs[0]] + rest) == {xs[0]} + Elems(rest);
      }
    }
  }

  lemma {:induction false} DedupAppend(a: seq<Service>, b: seq<Service>, seen: set<Service>)
    ensures Dedup(a + b, seen) == Dedup(a, seen) + Dedup(b, seen + Elems(a))
  {
    if a == [] {
      assert a + b == b;
      assert seen + Elems(a) == seen;
    } else {
      assert (a + b)[1..] == a[1..] + b;
      assert Elems(a) == {a[0]} + Elems(a[1..]);
      if a[0] in seen {
        DedupAppend(a[1..], b, seen);
        assert seen + Elems(a) == seen + Elems(a[1..]);
      } else {
        DedupAppend(a[1..], b, seen + {a[0]});
        assert seen + Elems(a) == seen + {a[0]} + Elems(a[1..]);
      }
    }
  }

  /** De-duplicating layer by layer is de-duplicating the whole sequence. */
  lemma {:induction false} FlattenDedup(layers: seq<seq<Service>>, seen: set<Service>)
    ensures Flatten(DedupLayers(layers, seen)) == Dedup(Flatten(layers), seen)
  {
    if layers != [] {
      FlattenDedup(layers[1..], seen + Elems(layers[0]));
      DedupAppend(layers[0], Flatten(layers[1..]), seen);
      var rest := DedupLayers(layers[1..], seen + Elems(layers[0]));
      assert DedupLayers(layers, seen)[1..] == rest;
    }
  }

  // ----------------------------------------------------------------------------- the boot order

  ghost predicate DepsIn(g: Graph, s: Service, before: set<Service>) {
    forall d | Edge(g, s, d) && Booted(g, d) :: d in before
  }

  /** Booting xs after `before`, each service that is not booted yet finds its dependencies booted. */
  ghost predicate Bootable(g: Graph, xs: seq<Service>, before: set<Service>) {
    xs == [] ||
    ((xs[0] in before || DepsIn(g, xs[0], before)) && Bootable(g, xs[1..], before + {xs[0]}))
  }

  lemma {:induction false} BootableAppend(g: Graph, a: seq<Service>, b: seq<Service>, before: set<Service>)
    requires Bootable(g, a, before) && Bootable(g, b, before + Elems(a))
    ensures Bootable(g, a + b, before)
  {
    if a == [] {
      assert a + b == b;
      assert before + Elems(a) == before;
    } else {
      assert (a + b)[1..] == a[1..] + b;
      assert before + Elems(a) == before + {a[0]} + Elems(a[1..]);
      BootableAppend(g, a[1..], b, before + {a[0]});
    }
  }

  lemma {:induction false} BootableDedup(g: Graph, xs: seq<Service>, seen: set<Service>)
    requires Bootable(g, xs, seen)
    ensures Bootable(g, Dedup(xs, seen), seen)
  {
    if xs != [] {
      if xs[0] in seen {
        assert seen + {xs[0]} == seen;
        BootableDedup(g, xs[1..], seen);
      } else {
        BootableDedup(g, xs[1..], seen + {xs[0]});
        assert Dedup(xs, seen)[1..] == Dedup(xs[1..], seen + {xs[0]});
      }
    }
  }

  lemma {:induction false} BootablePosition(g: Graph, xs: seq<Service>, before: set<Service>, p: nat)
    requires Bootable(g, xs, before) && p < |xs| && xs[p] !in before && xs[p] !in xs[..p]
    ensures DepsIn(g, xs[p], before + Elems(xs[..p]))
  {
    if p > 0 {
      assert xs[..p] == [xs[0]] + xs[1..][..p - 1];
      BootablePosition(g, xs[1..], before + {xs[0]}, p - 1);
      assert before + {xs[0]} + Elems(xs[1..][..p - 1]) == before + Elems(xs[..p]);
    }
  }

  /** One settled layer boots once the layer below it has. */
  lemma {:induction false} LayerBoots(g: Graph, layers: seq<seq<Service>>, l: nat, i: nat, before: set<Service>)
    requires l < |layers| && i <= |layers[l]|
    requires forall p | 0 <= p < |layers[l]| :: Settled(g, layers, l, p)
    requires l + 1 < |layers| ==> Elems(layers[l + 1]) <= before
    requires Elems(layers[l][..i]) <= before
    ensures Bootable(g, layers[l][i..], before)
    decreases |layers[l]| - i
  {
    if i < |layers[l]| {
      var s := layers[l][i];
      assert Settled(g, layers, l, i);
      assert layers[l][i..][1..] == layers[l][i + 1..];
      assert layers[l][..i + 1] == layers[l][..i] + [s];
      LayerBoots(g, layers, l, i + 1, before + {s});
    }
  }

  ghost predicate AllSettled(g: Graph, layers: seq<seq<Service>>) {
    forall l, p | Holds(layers, l, p) :: Settled(g, layers, l, p)
  }

  /** Booting the settled layers from the deepest up to layer l. */
  lemma {:induction false} LayersBoot(g: Graph, layers: seq<seq<Service>>, l: nat)
    requires AllSettled(g, layers) && l <= |layers|
    ensures Bootable(g, Flatten(Reverse(layers[l..])), {})
    ensures l < |layers| ==> Elems(layers[l]) <= Elems(Flatten(Reverse(layers[l..])))
    decreases |layers| - l
  {
    if l < |layers| {
      LayersBoot(g, layers, l + 1);
      var below := Flatten(Reverse(layers[l + 1..]));
      assert layers[l..][1..] == layers[l + 1..];
      FlattenAppend(Reverse(layers[l + 1..]), [layers[l]]);
      assert [layers[l]][1..] == [];
      assert Flatten([layers[l]]) == layers[l];
      assert Flatten(Reverse(layers[l..])) == below + layers[l];
      forall p | 0 <= p < |layers[l]| ensures Settled(g, layers, l, p) {
        assert Holds(layers, l, p);
      }
      LayerBoots(g, layers, l, 0, Elems(below));
      assert layers[l][0..] == layers[l];
      assert {} + Elems(below) == Elems(below);
      BootableAppend(g, below, layers[l], {});
    }
  }

  /** After scanning the exposed services everything is settled, and each of them is in layer 0. */
  lemma {:induction false} ExposedSettle(g: Graph, exposed: seq<Service>, out: Output)
    requires Acyclic(g) && AllSettled(g, out.layers)
    ensures var r := ScanExposed(g, exposed, out).layers;
            && AllSettled(g, r) && Extends(out.layers, r)
            && (forall e | e in exposed :: |r| > 0 && e in r[0])
            && (forall l, p | Holds(r, l, p) && !Holds(out.layers, l, p) ::
                  exists e :: e in exposed && From(g, e, r[l][p]))
  {
    if exposed != [] {
      var e0 := exposed[0];
      var first := Scan(g, e0, out, 0);
      ScanSettles(g, e0, out, 0);
      forall l, p | Holds(first.layers, l, p) ensures Settled(g, first.layers, l, p) {
        if Holds(out.layers, l, p) {
          SettledExtends(g, out.layers, first.layers, l, p);
        }
      }
      ExposedSettle(g, exposed[1..], first);
      var r := ScanExposed(g, exposed, out).layers;
      ExtendsTransitive(out.layers, first.layers, r);
      assert first.layers[0] <= r[0];
      forall l, p | Holds(r, l, p) && !Holds(out.layers, l, p)
        ensures exists e :: e in exposed && From(g, e, r[l][p])
      {
        if Holds(first.layers, l, p) {
          assert first.layers[l] <= r[l];
          assert From(g, e0, r[l][p]);
        } else {
          var e :| e in exposed[1..] && From(g, e, r[l][p]);
          assert e in exposed;
        }
      }
    }
  }

  /** The undeduplicated sequence already boots. */
  lemma RawSequenceBoots(g: Graph, exposed: seq<Service>)
    requires Acyclic(g)
    ensures Bootable(g, Flatten(Reverse(ScanExposed(g, exposed, Empty()).layers) + [exposed]), {})
  {
    var r := ScanExposed(g, exposed, Empty()).layers;
    ExposedSettle(g, exposed, Empty());
    LayersBoot(g, r, 0);
    assert r[0..] == r;
    FlattenAppend(Reverse(r), [exposed]);
    assert [exposed][1..] == [];
    assert Flatten([exposed]) == exposed;
    var raw := Flatten(Reverse(r));
    forall e | e in exposed ensures e in Elems(raw) {
      assert e in Elems(r[0]);
    }
    AlreadyBooted(g, exposed, {} + Elems(raw));
    BootableAppend(g, raw, exposed, {});
  }

  lemma {:induction false} AlreadyBooted(g: Graph, xs: seq<Service>, before: set<Service>)
    requires Elems(xs) <= before
    ensures Bootable(g, xs, before)
  {
    if xs != [] {
      assert xs[0] in Elems(xs);
      forall x | x in Elems(xs[1..]) ensures x in before + {xs[0]} {
        assert x in Elems(xs);
      }
      AlreadyBooted(g, xs[1..], before + {xs[0]});
    }
  }

  /** Every booted dependency comes before each of its dependants. */
  lemma BootOrderIsTopological(g: Graph, exposed: seq<Service>)
    requires Acyclic(g)
    ensures var order := BootSequence(g, exposed);
            forall p, d | 0 <= p < |order| && Edge(g, order[p], d) && Booted(g, d) :: d in order[..p]
  {
    var raw := Reverse(ScanExposed(g, exposed, Empty()).layers) + [exposed];
    var order := BootSequence(g, exposed);
    RawSequenceBoots(g, exposed);
    FlattenDedup(raw, {});
    DedupKeeps(Flatten(raw), {});
    BootableDedup(g, Flatten(raw), {});
    forall p, d | 0 <= p < |order| && Edge(g, order[p], d) && Booted(g, d) ensures d in order[..p] {
      BootablePosition(g, order, {}, p);
      assert d in {} + Elems(order[..p]);
    }
  }

  /** The boot order has the services of the scanned layers and the exposed ones, and no others. */
  lemma BootSequenceElems(g: Graph, exposed: seq<Service>)
    requires Acyclic(g)
    ensures NoRepeats(BootSequence(g, exposed))
    ensures Elems(BootSequence(g, exposed)) ==
            Elems(Flatten(Reverse(ScanExposed(g, exposed, Empty()).layers))) + Elems(exposed)
  {
    var raw := Reverse(ScanExposed(g, exposed, Empty()).layers);
    FlattenDedup(raw + [exposed], {});
    DedupKeeps(Flatten(raw + [exposed]), {});
    FlattenAppend(raw, [exposed]);
    assert [exposed][1..] == [];
    assert Flatten([exposed]) == exposed;
  }

  lemma BootedIsReached(g: Graph, exposed: seq<Service>, s: Service)
    requires Acyclic(g) && s in BootSequence(g, exposed)
    ensures exists e :: e in exposed && From(g, e, s)
  {
    var r := ScanExposed(g, exposed, Empty()).layers;
    BootSequenceElems(g, exposed);
    assert s in Elems(BootSequence(g, exposed));
    if s in exposed {
      assert From(g, s, s);
    } else {
      ExposedSettle(g, exposed, Empty());
      assert s in Flatten(Reverse(r));
      ReverseElems(r, s);
      FlattenElems(r, s);
      var l :| 0 <= l < |r| && s in r[l];
      var p :| 0 <= p < |r[l]| && r[l][p] == s;
      assert Holds(r, l, p) && !Holds(Empty().layers, l, p);
    }
  }

  lemma ReachedIsBooted(g: Graph, exposed: seq<Service>, e: Service, s: Service)
    requires Acyclic(g) && e in exposed && From(g, e, s)
    ensures s in BootSequence(g, exposed)
  {
    BootSequenceElems(g, exposed);
    assert e in Elems(BootSequence(g, exposed));
    if s == e {
      assert s in Elems(BootSequence(g, exposed));
    } else {
      var w :| Connects(g, w, e, s);
      WalkBoots(g, exposed, w);
    }
  }

  /** The boot order holds the exposed services and the booted services they reach, each exactly once. */
  lemma BootOrderIsComplete(g: Graph, exposed: seq<Service>)
    requires Acyclic(g)
    ensures NoRepeats(BootSequence(g, exposed))
    ensures forall s :: s in BootSequence(g, exposed) <==> exists e :: e in exposed && From(g, e, s)
  {
    BootSequenceElems(g, exposed);
    forall s ensures s in BootSequence(g, exposed) <==> exists e :: e in exposed && From(g, e, s) {
      if s in BootSequence(g, exposed) {
        BootedIsReached(g, exposed, s);
      }
      if e :| e in exposed && From(g, e, s) {
        ReachedIsBooted(g, exposed, e, s);
      }
    }
  }

  /** A walk from a booted service to a booted service stays inside the boot order. */
  lemma {:induction false} WalkBoots(g: Graph, exposed: seq<Service>, w: seq<Service>)
    requires Acyclic(g) && |w| >= 2 && Walk(g, w)
    requires w[0] in BootSequence(g, exposed) && Booted(g, w[|w| - 1])
    ensures w[|w| - 1] in BootSequence(g, exposed)
  {
    BootOrderIsTopological(g, exposed);
    var order := BootSequence(g, exposed);
    var p :| 0 <= p < |order| && order[p] == w[0];
    assert Edge(g, w[0], w[0 + 1]);
    if |w| > 2 {
      assert Edge(g, w[1], w[1 + 1]);
      assert Booted(g, w[1]);
      assert w[1] in order[..p];
      forall i | 0 <= i < |w[1..]| - 1 ensures Edge(g, w[1..][i], w[1..][i + 1]) {
        assert Edge(g, w[i + 1], w[i + 1 + 1]);
      }
      WalkBoots(g, exposed, w[1..]);
    } else {
      assert w[1] in order[..p];
    }
  }

  // --------------------------------------------------------------------- providers for the order

  /** The services for which `resolve` makes a provider. */
  function Provided(out: Output): set<Service> {
    Elems(out.custom) + Elems(out.platform)
  }

  ghost predicate Covered(out: Output) {
    forall s | s in Flatten(out.layers) :: s in Provided(out)
  }

  lemma {:induction false} RegisterElems(layers: seq<seq<Service>>, types: seq<Service>, layer: nat)
    ensures Elems(Flatten(Register(layers, types, layer))) == Elems(Flatten(layers)) + Elems(types)
  {
    var r := Register(layers, types, layer);
    if layer < |layers| {
      assert layers == layers[..layer] + [layers[layer]] + layers[layer + 1..];
      assert r == layers[..layer] + [layers[layer] + types] + layers[layer + 1..];
      FlattenAppend(layers[..layer], [layers[layer]]);
      FlattenAppend(layers[..layer] + [layers[layer]], layers[layer + 1..]);
      FlattenAppend(layers[..layer], [layers[layer] + types]);
      FlattenAppend(layers[..layer] + [layers[layer] + types], layers[layer + 1..]);
      FlattenOne(layers[layer]);
      FlattenOne(layers[layer] + types);
    } else {
      FlattenAppend(layers, [types]);
      FlattenOne(types);
    }
  }

  lemma FlattenOne(xs: seq<Service>)
    ensures Flatten([xs]) == xs
  {
    assert [xs][1..] == [];
  }

  lemma {:induction false} ScanEachCovers(g: Graph, c: Service, ds: seq<Service>, out: Output, layer: nat)
    requires Acyclic(g) && (forall d | d in ds :: Edge(g, c, d)) && Covered(out)
    ensures Covered(ScanEach(g, c, ds, out, layer))
    decreases Rank(g, c), 0, |ds|
  {
    if ds != [] {
      RankDecreases(g, c, ds[0]);
      ScanCovers(g, ds[0], out, layer);
      ScanEachCovers(g, c, ds[1..], Scan(g, ds[0], out, layer), layer);
    }
  }

  lemma {:induction false} ScanCovers(g: Graph, c: Service, out: Output, layer: nat)
    requires Acyclic(g) && Covered(out)
    ensures Covered(Scan(g, c, out, layer))
    decreases Rank(g, c), 1, 0
  {
    var ps := Params(g, c);
    ToScanAreEdges(g, ps);
    var o1 := ScanParams(g, c, out, layer);
    RegisterElems(out.layers, ToBoot(g, ps), layer);
    CoveredBy(o1, out, ToBoot(g, ps));
    var o2 := ScanEach(g, c, ToScan(g, ps), o1, layer + 1);
    ScanEachCovers(g, c, ToScan(g, ps), o1, layer + 1);
    RegisterElems(o2.layers, [c], layer);
    CoveredBy(Scan(g, c, out, layer), o2, [c]);
  }

  lemma CoveredBy(after: Output, before: Output, types: seq<Service>)
    requires Covered(before)
    requires Elems(Flatten(after.layers)) == Elems(Flatten(before.layers)) + Elems(types)
    requires Provided(before) + Elems(types) <= Provided(after)
    ensures Covered(after)
  {
    forall s | s in Flatten(after.layers) ensures s in Provided(after) {
      assert s in Elems(Flatten(after.layers));
      assert s in Elems(Flatten(before.layers)) || s in Elems(types);
    }
  }

  lemma {:induction false} ExposedCover(g: Graph, exposed: seq<Service>, out: Output)
    requires Acyclic(g) && Covered(out)
    ensures Covered(ScanExposed(g, exposed, out))
  {
    if exposed != [] {
      ScanCovers(g, exposed[0], out, 0);
      ExposedCover(g, exposed[1..], Scan(g, exposed[0], out, 0));
    }
  }

  /** Whatever boots has been given a provider by the same scan, so the injector can instantiate it. */
  lemma BootedHaveProviders(g: Graph, exposed: seq<Service>)
    requires Acyclic(g)
    ensures Elems(BootSequence(g, exposed)) <= Provided(ScanExposed(g, exposed, Empty()))
  {
    var out := ScanExposed(g, exposed, Empty());
    ExposedCover(g, exposed, Empty());
    BootSequenceElems(g, exposed);
    forall s | s in Elems(BootSequence(g, exposed)) ensures s in Provided(out) {
      ReverseElems(out.layers, s);
      if s in exposed {
        ExposedSettle(g, exposed, Empty());
        FlattenElems(out.layers, s);
      }
      assert s in Flatten(out.layers);
    }
  }
}
