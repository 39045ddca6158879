/** The two lists of a scan, read off the injection graph: which services get the injected platform client and which
    are made from their class. */
module ServiceLists {
  import opened InjectionGraph
  import opened Utils
  import opened BootOrder

  /** A constructor parameter of a service that is exposed or reached from an exposed one. */
  ghost predicate Asked(g: Graph, exposed: seq<Service>, s: Service) {
    exists v :: Edge(g, v, s) && Visited(g, exposed, v)
  }

  ghost predicate Visited(g: Graph, exposed: seq<Service>, v: Service) {
    v in exposed || exists e :: e in exposed && Reaches(g, e, v)
  }

  /** What a list has from the scan of c: c itself, or a service that c reaches. */
  ghost predicate GivesPlatform(g: Graph, c: Service, s: Service) {
    s in g.platform && (s == c || Reaches(g, c, s))
  }

  ghost predicate GivesCustom(g: Graph, c: Service, s: Service) {
    (s == c && s !in g.platform) || (Reaches(g, c, s) && Booted(g, s))
  }

  lemma {:induction false} PlatformOfParams(g: Graph, ps: seq<Param>, s: Service)
    ensures s in PlatformOf(g, ps) <==> Class(s) in ps && !Booted(g, s)
  {
    if ps != [] {
      PlatformOfParams(g, ps[1..], s);
    }
  }

  /** A walk to s is one edge, or an edge and a walk. */
  lemma FirstEdge(g: Graph, c: Service, s: Service)
    ensures Reaches(g, c, s) <==> Edge(g, c, s) || exists d :: Edge(g, c, d) && Reaches(g, d, s)
  {
    if Edge(g, c, s) {
      EdgeReaches(g, c, s);
    }
    if d :| Edge(g, c, d) && Reaches(g, d, s) {
      EdgeReaches(g, c, d);
      ReachesTransitive(g, c, d, s);
    }
    if Reaches(g, c, s) && !Edge(g, c, s) {
      var w :| Connects(g, w, c, s);
      assert Edge(g, w[0], w[0 + 1]);
      forall i | 0 <= i < |w[1..]| - 1 ensures Edge(g, w[1..][i], w[1..][i + 1]) {
        assert Edge(g, w[i + 1], w[i + 1 + 1]);
      }
      assert Connects(g, w[1..], w[1], s);
    }
  }

  lemma {:induction false} ScanLists(g: Graph, c: Service, out: Output, layer: nat, s: Service)
    requires Acyclic(g)
    ensures var r := Scan(g, c, out, layer);
            && (s in r.platform <==> s in out.platform || GivesPlatform(g, c, s))
            && (s in r.custom <==> s in out.custom || GivesCustom(g, c, s))
    decreases Rank(g, c), 1, 0
  {
    var ps := Params(g, c);
    ToScanAreEdges(g, ps);
    ToBootAreEdges(g, ps);
    PlatformOfParams(g, ps, s);
    ScanEachLists(g, c, ToScan(g, ps), ScanParams(g, c, out, layer), layer + 1, s);
    FirstEdge(g, c, s);
    assert forall d | Edge(g, c, d) && Reaches(g, d, s) :: d in ToScan(g, ps) by {
      forall d | Edge(g, c, d) && Reaches(g, d, s) ensures HasInjection(g, d) {
        var w :| Connects(g, w, d, s);
        assert Edge(g, w[0], w[0 + 1]);
      }
    }
  }

  lemma {:induction false} ScanEachLists(g: Graph, c: Service, ds: seq<Service>, out: Output, layer: nat, s: Service)
    requires Acyclic(g) && forall d | d in ds :: Edge(g, c, d)
    ensures var r := ScanEach(g, c, ds, out, layer);
            && (s in r.platform <==> s in out.platform || exists d :: d in ds && GivesPlatform(g, d, s))
            && (s in r.custom <==> s in out.custom || exists d :: d in ds && GivesCustom(g, d, s))
    decreases Rank(g, c), 0, |ds|
  {
    if ds != [] {
      RankDecreases(g, c, ds[0]);
      ScanLists(g, ds[0], out, layer, s);
      ScanEachLists(g, c, ds[1..], Scan(g, ds[0], out, layer), layer, s);
      assert forall d :: d in ds <==> d == ds[0] || d in ds[1..];
    }
  }

  lemma {:induction false} ExposedLists(g: Graph, exposed: seq<Service>, out: Output, s: Service)
    requires Acyclic(g)
    ensures var r := ScanExposed(g, exposed, out);
            && (s in r.platform <==> s in out.platform || exists e :: e in exposed && GivesPlatform(g, e, s))
            && (s in r.custom <==> s in out.custom || exists e :: e in exposed && GivesCustom(g, e, s))
  {
    if exposed != [] {
      ScanLists(g, exposed[0], out, 0, s);
      ExposedLists(g, exposed[1..], Scan(g, exposed[0], out, 0), s);
      assert forall e :: e in exposed <==> e == exposed[0] || e in exposed[1..];
    }
  }

  lemma AskedIsReached(g: Graph, exposed: seq<Service>, s: Service)
    ensures Asked(g, exposed, s) <==> exists e :: e in exposed && Reaches(g, e, s)
  {
    if v :| Edge(g, v, s) && Visited(g, exposed, v) {
      EdgeReaches(g, v, s);
      if v !in exposed {
        var e :| e in exposed && Reaches(g, e, v);
        ReachesTransitive(g, e, v, s);
      }
    }
    if e :| e in exposed && Reaches(g, e, s) {
      var w :| Connects(g, w, e, s);
      LastEdge(g, w, e, s);
      assert Visited(g, exposed, w[|w| - 2]);
    }
  }

  lemma LastEdge(g: Graph, w: seq<Service>, c: Service, s: Service)
    requires Connects(g, w, c, s)
    ensures Edge(g, w[|w| - 2], s) && (w[|w| - 2] == c || Reaches(g, c, w[|w| - 2]))
  {
    var n := |w| - 2;
    assert Edge(g, w[n], w[n + 1]);
    if n > 0 {
      var v := w[..n + 1];
      forall i | 0 <= i < |v| - 1 ensures Edge(g, v[i], v[i + 1]) {
        assert Edge(g, w[i], w[i + 1]);
      }
      assert Connects(g, v, c, w[n]);
    }
  }

  /** A service is listed as platform exactly if it is one, and is exposed or asked for; it is listed as custom exactly
      if it is exposed and no platform service, or is asked for and booted. The lists share no service if platform
      services have no parameters. */
  lemma ListsAreRight(g: Graph, exposed: seq<Service>)
    requires Acyclic(g)
    ensures var out := ScanExposed(g, exposed, Empty());
            && (forall s :: s in out.platform <==> s in g.platform && (s in exposed || Asked(g, exposed, s)))
            && (forall s :: s in out.custom <==>
                  || (s in exposed && s !in g.platform)
                  || (Asked(g, exposed, s) && (Params(g, s) != [] || s !in g.platform)))
            && ((forall s | s in g.platform :: Params(g, s) == []) ==> Elems(out.platform) !! Elems(out.custom))
  {
    var out := ScanExposed(g, exposed, Empty());
    forall s
      ensures s in out.platform <==> s in g.platform && (s in exposed || Asked(g, exposed, s))
      ensures s in out.custom <==> (s in exposed && s !in g.platform) || (Asked(g, exposed, s) && Booted(g, s))
    {
      ExposedLists(g, exposed, Empty(), s);
      AskedIsReached(g, exposed, s);
    }
  }

  /** What boots: the exposed services, and those asked for that have parameters of their own or are no platform
      service. */
  lemma BootsExactly(g: Graph, exposed: seq<Service>)
    requires Acyclic(g)
    ensures forall s :: s in BootSequence(g, exposed) <==>
              s in exposed || (Asked(g, exposed, s) && (Params(g, s) != [] || s !in g.platform))
  {
    BootOrderIsComplete(g, exposed);
    forall s
      ensures s in BootSequence(g, exposed) <==>
                s in exposed || (Asked(g, exposed, s) && (Params(g, s) != [] || s !in g.platform))
    {
      AskedIsReached(g, exposed, s);
      if s in exposed {
        assert From(g, s, s);
      }
      assert forall e | e in exposed && Reaches(g, e, s) && Booted(g, s) :: From(g, e, s);
    }
  }

  lemma OneEdge(g: Graph, a: Service, b: Service)
    requires a != b && g.params == map[a := [Class(b)]]
    ensures Acyclic(g) && forall s :: Asked(g, [a], s) <==> s == b
  {
    assert forall x, y :: Edge(g, x, y) <==> x == a && y == b;
    forall x, y | Reaches(g, x, y) ensures x == a && y == b {
      var w :| Connects(g, w, x, y);
      assert Edge(g, w[0], w[0 + 1]);
      LastEdge(g, w, x, y);
    }
    assert Visited(g, [a], a);
  }

  /** The smallest case: an exposed service with one custom parameter boots with it, and both are made from their
      classes; if the parameter is a platform service, it is injected and does not boot. */
  lemma OneDependency(g: Graph, a: Service, b: Service)
    requires a != b && g.params == map[a := [Class(b)]] && a !in g.platform
    ensures Acyclic(g)
    ensures var out := ScanExposed(g, [a], Empty());
            if b in g.platform then
              Elems(BootSequence(g, [a])) == {a} && Elems(out.custom) == {a} && Elems(out.platform) == {b}
            else
              Elems(BootSequence(g, [a])) == {a, b} && Elems(out.custom) == {a, b} && Elems(out.platform) == {}
  {
    OneEdge(g, a, b);
    ListsAreRight(g, [a]);
    BootsExactly(g, [a]);
  }
}
