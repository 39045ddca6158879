/** Running the boot layers: the hooks that `configure` calls, and in which order. */
module WorkerInstance {
  import opened InjectionGraph
  import opened Utils
  import opened BootOrder

  /** The injector makes one instance per service, so an instance is named by its service. */
  datatype Hooks = Hooks(bootstrappable: set<Service>, failing: set<Service>)

  datatype Outcome = Success | BootFail(location: Service)

  function Hooked(h: Hooks, xs: seq<Service>): seq<Service> {
    if xs == [] then []
    else if xs[0] in h.bootstrappable then [xs[0]] + Hooked(h, xs[1..])
    else Hooked(h, xs[1..])
  }

  /** The calls up to and including the first one that fails. */
  function UntilFailure(h: Hooks, xs: seq<Service>): seq<Service> {
    if xs == [] then []
    else if xs[0] in h.failing then [xs[0]]
    else [xs[0]] + UntilFailure(h, xs[1..])
  }

  function OutcomeOf(h: Hooks, xs: seq<Service>): Outcome {
    if xs == [] then Success
    else if xs[0] in h.failing then BootFail(xs[0])
    else OutcomeOf(h, xs[1..])
  }

  /** The hook calls of a sequence of instances: each bootstrappable one at its first occurrence. */
  function Calls(h: Hooks, xs: seq<Service>): seq<Service> {
    Dedup(Hooked(h, xs), {})
  }

  lemma {:induction false} HookedAppend(h: Hooks, a: seq<Service>, b: seq<Service>)
    ensures Hooked(h, a + b) == Hooked(h, a) + Hooked(h, b)
  {
    if a == [] {
      assert a + b == b;
    } else {
      HookedAppend(h, a[1..], b);
      assert (a + b)[1..] == a[1..] + b;
    }
  }

  lemma {:induction false} HookedElems(h: Hooks, xs: seq<Service>)
    ensures Elems(Hooked(h, xs)) == Elems(xs) * h.bootstrappable
  {
    if xs != [] {
      HookedElems(h, xs[1..]);
      assert Elems(xs) == {xs[0]} + Elems(xs[1..]);
      if xs[0] in h.bootstrappable {
        assert Elems([xs[0]] + Hooked(h, xs[1..])) == {xs[0]} + Elems(Hooked(h, xs[1..]));
      }
    }
  }

  lemma {:induction false} CallsSnoc(h: Hooks, a: seq<Service>, s: Service)
    ensures Calls(h, a + [s]) ==
            if s in h.bootstrappable && s !in Calls(h, a) then Calls(h, a) + [s] else Calls(h, a)
  {
    HookedAppend(h, a, [s]);
    assert [s][1..] == [];
    DedupAppend(Hooked(h, a), Hooked(h, [s]), {});
    DedupKeeps(Hooked(h, a), {});
    assert s in Calls(h, a) <==> s in Elems(Calls(h, a));
    assert s in Hooked(h, a) <==> s in Elems(Hooked(h, a));
    assert {} + Elems(Hooked(h, a)) == Elems(Hooked(h, a));
    if s in h.bootstrappable {
      assert Hooked(h, [s]) == [s];
    }
  }

  lemma UntilFailureCons(h: Hooks, a: seq<Service>, b: seq<Service>)
    requires a != [] && a[0] !in h.failing
    requires UntilFailure(h, a[1..]) <= a[1..]
    ensures UntilFailure(h, a) <= a
    ensures UntilFailure(h, a + b) == [a[0]] + UntilFailure(h, a[1..] + b)
    ensures OutcomeOf(h, a + b) == OutcomeOf(h, a[1..] + b)
    ensures [a[0]] + (a[1..] + UntilFailure(h, b)) == a + UntilFailure(h, b)
  {
    assert (a + b)[0] == a[0] && (a + b)[1..] == a[1..] + b;
    assert [a[0]] + a[1..] == a;
  }

  lemma {:induction false} UntilFailurePrefix(h: Hooks, a: seq<Service>, b: seq<Service>)
    ensures UntilFailure(h, a) <= a
    ensures OutcomeOf(h, a) == Success <==> Elems(a) !! h.failing
    ensures OutcomeOf(h, a) == Success ==> UntilFailure(h, a) == a && UntilFailure(h, a + b) == a + UntilFailure(h, b)
    ensures OutcomeOf(h, a) == Success ==> OutcomeOf(h, a + b) == OutcomeOf(h, b)
    ensures OutcomeOf(h, a) != Success ==>
              UntilFailure(h, a + b) == UntilFailure(h, a) && OutcomeOf(h, a + b) == OutcomeOf(h, a)
  {
    if a == [] {
      assert a + b == b;
    } else {
      assert (a + b)[0] == a[0] && (a + b)[1..] == a[1..] + b;
      assert Elems(a) == {a[0]} + Elems(a[1..]);
      if a[0] !in h.failing {
        UntilFailurePrefix(h, a[1..], b);
        UntilFailureCons(h, a, b);
      }
    }
  }

  class TaskDispatcherWorkerInstance {
    const hooks: Hooks
    const bootLayers: seq<seq<Service>>
    var bootstrapped: seq<Service>
    ghost var calls: seq<Service>

    constructor (hooks: Hooks, bootLayers: seq<seq<Service>>)
      ensures this.hooks == hooks && this.bootLayers == bootLayers
      ensures bootstrapped == [] && calls == []
    {
      this.hooks, this.bootLayers := hooks, bootLayers;
      bootstrapped, calls := [], [];
    }

    method Bootstrap(instance: Service) returns (r: Outcome)
      modifies this`bootstrapped, this`calls
      ensures var due := instance in hooks.bootstrappable && instance !in old(bootstrapped);
              && calls == (if due then old(calls) + [instance] else old(calls))
              && r == (if due && instance in hooks.failing then BootFail(instance) else Success)
              && bootstrapped == (if due && r == Success then old(bootstrapped) + [instance] else old(bootstrapped))
    {
      r := Success;
      if instance in hooks.bootstrappable && instance !in bootstrapped {
        calls := calls + [instance];
        if instance in hooks.failing {
          return BootFail(instance);
        }
        bootstrapped := bootstrapped + [instance];
      }
    }

    /** The loop over one layer; `seen` are the instances of the layers above it, `rest` those below, and `before` the
        calls that earlier runs made. */
    method ConfigureLayer(apis: seq<Service>, ghost seen: seq<Service>, ghost rest: seq<Service>,
                          ghost before: seq<Service>)
      returns (r: Outcome)
      requires Running(hooks, seen, bootstrapped) && calls == before + bootstrapped
      modifies this`bootstrapped, this`calls
      ensures r == Success ==> Running(hooks, seen + apis, bootstrapped) && calls == before + bootstrapped
      ensures r != Success ==>
                var due := Calls(hooks, seen + apis + rest);
                r == OutcomeOf(hooks, due) && calls == before + UntilFailure(hooks, due)
    {
      r := Success;
      assert seen + apis[..0] == seen;
      for i := 0 to |apis|
        invariant Running(hooks, seen + apis[..i], bootstrapped) && r == Success
        invariant calls == before + bootstrapped
      {
        LayerSplit(seen, apis, rest, i);
        StepBoots(hooks, seen + apis[..i], apis[i], apis[i + 1..] + rest, bootstrapped);
        assert before + bootstrapped + [apis[i]] == before + (bootstrapped + [apis[i]]);
        r := Bootstrap(apis[i]);
        if r != Success {
          return;
        }
      }
      assert apis[..|apis|] == apis;
    }

    /** Calls every bootstrap hook once, in layer order, and stops at the first that fails. */
    method Configure() returns (r: Outcome)
      requires bootstrapped == []
      modifies this`bootstrapped, this`calls
      ensures bootstrapped == []
      ensures var due := Calls(hooks, Flatten(bootLayers));
              calls == old(calls) + UntilFailure(hooks, due) && r == OutcomeOf(hooks, due)
    {
      r := Success;
      ghost var seen: seq<Service> := [];
      for layer := 0 to |bootLayers|
        invariant seen + Flatten(bootLayers[layer..]) == Flatten(bootLayers)
        invariant Running(hooks, seen, bootstrapped) && r == Success
        invariant calls == old(calls) + bootstrapped
      {
        ghost var rest := Flatten(bootLayers[layer + 1..]);
        assert bootLayers[layer..][1..] == bootLayers[layer + 1..];
        assert seen + bootLayers[layer] + rest == Flatten(bootLayers);
        r := ConfigureLayer(bootLayers[layer], seen, rest, old(calls));
        if r != Success {
          bootstrapped := [];
          return;
        }
        seen := seen + bootLayers[layer];
      }
      assert seen == Flatten(bootLayers);
      UntilFailurePrefix(hooks, bootstrapped, []);
      bootstrapped := [];
    }
  }

  lemma LayerSplit(seen: seq<Service>, apis: seq<Service>, rest: seq<Service>, i: nat)
    requires i < |apis|
    ensures seen + apis[..i] + [apis[i]] == seen + apis[..i + 1]
    ensures seen + apis[..i] + [apis[i]] + (apis[i + 1..] + rest) == seen + apis + rest
  {
    assert apis == apis[..i] + [apis[i]] + apis[i + 1..];
  }

  /** The instances seen so far booted without a failure, and `done` are those whose hook ran. */
  ghost predicate Running(h: Hooks, seen: seq<Service>, done: seq<Service>) {
    done == Calls(h, seen) && OutcomeOf(h, done) == Success
  }

  lemma StepBoots(h: Hooks, seen: seq<Service>, s: Service, rest: seq<Service>, done: seq<Service>)
    requires Running(h, seen, done)
    ensures var due := s in h.bootstrappable && s !in done;
            if due && s in h.failing then
              var all := Calls(h, seen + [s] + rest);
              UntilFailure(h, all) == done + [s] && OutcomeOf(h, all) == BootFail(s)
            else Running(h, seen + [s], if due then done + [s] else done)
  {
    CallsSnoc(h, seen, s);
    UntilFailurePrefix(h, done, [s]);
    assert [s][1..] == [];
    if s in h.bootstrappable && s !in done && s in h.failing {
      CallsExtend(h, seen + [s], rest);
      var more :| Calls(h, seen + [s] + rest) == done + [s] + more;
      UntilFailurePrefix(h, done + [s], more);
    }
  }

  /** More instances only append to the calls. */
  lemma CallsExtend(h: Hooks, a: seq<Service>, b: seq<Service>)
    ensures exists more :: Calls(h, a + b) == Calls(h, a) + more
  {
    HookedAppend(h, a, b);
    DedupAppend(Hooked(h, a), Hooked(h, b), {});
    assert Calls(h, a + b) == Calls(h, a) + Dedup(Hooked(h, b), {} + Elems(Hooked(h, a)));
  }

  lemma {:induction false} FirstCallPosition(h: Hooks, xs: seq<Service>, p: nat)
    requires p < |xs| && xs[p] in h.bootstrappable && xs[p] !in xs[..p]
    ensures Calls(h, xs[..p]) + [xs[p]] <= Calls(h, xs)
    ensures Elems(Calls(h, xs[..p])) == Elems(xs[..p]) * h.bootstrappable
  {
    assert xs == xs[..p] + [xs[p]] + xs[p + 1..];
    CallsExtend(h, xs[..p] + [xs[p]], xs[p + 1..]);
    CallsSnoc(h, xs[..p], xs[p]);
    HookedElems(h, xs[..p]);
    DedupKeeps(Hooked(h, xs[..p]), {});
    assert xs[p] in Calls(h, xs[..p]) <==> xs[p] in Elems(Calls(h, xs[..p]));
  }

  /** The hook calls before call i are those of the instances before its own first occurrence. */
  lemma CallIndex(h: Hooks, xs: seq<Service>, p: nat, i: nat)
    requires p < |xs| && xs[p] !in xs[..p] && i < |Calls(h, xs)| && Calls(h, xs)[i] == xs[p]
    ensures Elems(Calls(h, xs)[..i]) == Elems(xs[..p]) * h.bootstrappable
  {
    var due := Calls(h, xs);
    CallsBootstrappable(h, xs, xs[p]);
    FirstCallPosition(h, xs, p);
    var earlier := Calls(h, xs[..p]);
    assert due[|earlier|] == xs[p];
    DedupKeeps(Hooked(h, xs), {});
    assert i == |earlier|;
    assert due[..i] == earlier;
  }

  /** In the order of the calls, leaving failures aside, a dependency comes before its dependants. */
  lemma DependencyIsDue(g: Graph, exposed: seq<Service>, more: seq<seq<Service>>, h: Hooks, i: nat, d: Service)
    requires Acyclic(g)
    requires var due := Calls(h, Flatten(BootLayers(g, exposed) + more));
             && i < |due| && due[i] in BootSequence(g, exposed)
             && Edge(g, due[i], d) && Booted(g, d) && d in h.bootstrappable
    ensures d in Calls(h, Flatten(BootLayers(g, exposed) + more))[..i]
  {
    var order, rest := BootSequence(g, exposed), Flatten(more);
    FlattenAppend(BootLayers(g, exposed), more);
    var p :| 0 <= p < |order| && order[p] == Calls(h, order + rest)[i];
    BootOrderIsTopological(g, exposed);
    BootOrderIsComplete(g, exposed);
    DueBefore(h, order, rest, p, i, d);
  }

  lemma DueBefore(h: Hooks, order: seq<Service>, rest: seq<Service>, p: nat, i: nat, d: Service)
    requires p < |order| && NoRepeats(order) && d in order[..p] && d in h.bootstrappable
    requires i < |Calls(h, order + rest)| && Calls(h, order + rest)[i] == order[p]
    ensures d in Calls(h, order + rest)[..i]
  {
    var all := order + rest;
    assert all[..p] == order[..p] && all[p] == order[p];
    CallIndex(h, all, p, i);
    assert d in Elems(Calls(h, all)[..i]);
  }

  /** On the analysed boot layers, whatever layers follow them, no hook runs before those of its dependencies:
      when the hook of c runs as call number i, every bootstrappable booted dependency ran earlier and succeeded. */
  lemma DependenciesBootFirst(g: Graph, exposed: seq<Service>, more: seq<seq<Service>>, h: Hooks, i: nat, d: Service)
    requires Acyclic(g)
    requires var ran := UntilFailure(h, Calls(h, Flatten(BootLayers(g, exposed) + more)));
             && i < |ran| && ran[i] in BootSequence(g, exposed)
             && Edge(g, ran[i], d) && Booted(g, d) && d in h.bootstrappable
    ensures var ran := UntilFailure(h, Calls(h, Flatten(BootLayers(g, exposed) + more)));
            d in ran[..i] && d !in h.failing
  {
    var due := Calls(h, Flatten(BootLayers(g, exposed) + more));
    UntilFailurePrefix(h, due, []);
    DependencyIsDue(g, exposed, more, h, i, d);
    FailureIsLast(h, due, i, d);
  }

  /** No hook runs twice in one configuration, however often its instance is listed. */
  lemma HooksRunOnce(h: Hooks, layers: seq<seq<Service>>)
    ensures NoRepeats(UntilFailure(h, Calls(h, Flatten(layers))))
    ensures Elems(UntilFailure(h, Calls(h, Flatten(layers)))) <= Elems(Flatten(layers)) * h.bootstrappable
  {
    var xs := Flatten(layers);
    DedupKeeps(Hooked(h, xs), {});
    HookedElems(h, xs);
    UntilFailurePrefix(h, Calls(h, xs), []);
    forall s | s in Elems(UntilFailure(h, Calls(h, xs))) ensures s in Elems(Calls(h, xs)) {
    }
  }

  /** A configuration succeeds exactly if no listed hook fails, and then every listed hook has run. Otherwise the last
      hook that ran is the one that failed and the one reported, and all before it succeeded. */
  lemma AllHooksRunOrOneFails(h: Hooks, layers: seq<seq<Service>>)
    ensures var listed := Elems(Flatten(layers)) * h.bootstrappable;
            var due := Calls(h, Flatten(layers));
            var ran := UntilFailure(h, due);
            && (OutcomeOf(h, due) == Success <==> listed !! h.failing)
            && (OutcomeOf(h, due) == Success ==> Elems(ran) == listed)
            && (OutcomeOf(h, due) != Success ==>
                  && ran != [] && ran[|ran| - 1] in h.failing && OutcomeOf(h, due) == BootFail(ran[|ran| - 1])
                  && Elems(ran[..|ran| - 1]) !! h.failing)
  {
    var xs := Flatten(layers);
    DedupKeeps(Hooked(h, xs), {});
    HookedElems(h, xs);
    UntilFailurePrefix(h, Calls(h, xs), []);
    if OutcomeOf(h, Calls(h, xs)) != Success {
      LastFails(h, Calls(h, xs));
    }
  }

  lemma {:induction false} LastFails(h: Hooks, xs: seq<Service>)
    requires OutcomeOf(h, xs) != Success
    ensures var ran := UntilFailure(h, xs);
            && ran != [] && ran[|ran| - 1] in h.failing && OutcomeOf(h, xs) == BootFail(ran[|ran| - 1])
            && Elems(ran[..|ran| - 1]) !! h.failing
  {
    if xs[0] !in h.failing {
      LastFails(h, xs[1..]);
      var rest := UntilFailure(h, xs[1..]);
      assert ([xs[0]] + rest)[..|rest|] == [xs[0]] + rest[..|rest| - 1];
    }
  }

  lemma CallsBootstrappable(h: Hooks, xs: seq<Service>, s: Service)
    requires s in Calls(h, xs)
    ensures s in h.bootstrappable
  {
    DedupKeeps(Hooked(h, xs), {});
    HookedElems(h, xs);
    assert s in Elems(Calls(h, xs));
  }

  lemma {:induction false} FailureIsLast(h: Hooks, xs: seq<Service>, i: nat, d: Service)
    requires i < |UntilFailure(h, xs)| && d in UntilFailure(h, xs)[..i]
    ensures d !in h.failing
  {
    var ran := UntilFailure(h, xs);
    if d != xs[0] {
      assert ran[1..] == UntilFailure(h, xs[1..]);
      assert ran[..i] == [ran[0]] + ran[1..][..i - 1];
      FailureIsLast(h, xs[1..], i - 1, d);
    }
  }
}
