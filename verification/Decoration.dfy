/** Providers, how the injector resolves them, and what decorating a token does to the values it resolves to. */
module Decoration {
  import opened Wrappers

  /** A class or a token of the application, or one minted for a decorated provider. */
  datatype Token = Named(name: string) | Minted(number: nat)

  /** A provider of any kind: what it provides, what makes the value, and from which dependencies. */
  datatype Provider = Provider(provide: Token, factory: string, deps: seq<Token>)

  datatype Decorator = Decorator(token: Token, factory: string, dependencies: seq<Token>)

  /** A value, told apart by how it was made. */
  datatype Value = Built(factory: string, args: seq<Value>)

  // ------------------------------------------------------------------------------ the injector

  /** The last provider of a token wins. */
  function Find(ps: seq<Provider>, t: Token): Option<Provider> {
    if ps == [] then None
    else if ps[|ps| - 1].provide == t then Some(ps[|ps| - 1])
    else Find(ps[..|ps| - 1], t)
  }

  /** The value of a token with at most `depth` levels of dependencies. */
  function Resolve(ps: seq<Provider>, t: Token, depth: nat): Option<Value>
    decreases depth, 0
  {
    if depth == 0 then None
    else
      match Find(ps, t)
      case None => None
      case Some(p) =>
        match ResolveAll(ps, p.deps, depth - 1)
        case None => None
        case Some(args) => Some(Built(p.factory, args))
  }

  function ResolveAll(ps: seq<Provider>, ts: seq<Token>, depth: nat): (r: Option<seq<Value>>)
    ensures r.Some? ==> |r.value| == |ts|
    decreases depth, 1, |ts|
  {
    if ts == [] then Some([])
    else
      match (Resolve(ps, ts[0], depth), ResolveAll(ps, ts[1..], depth))
      case (Some(v), Some(vs)) => Some([v] + vs)
      case _ => None
  }

  // ------------------------------------------------------------------------------- decorating

  /** The providers of t provide k instead. */
  function Redirect(ps: seq<Provider>, t: Token, k: Token): seq<Provider> {
    seq(|ps|, i requires 0 <= i < |ps| => if ps[i].provide == t then ps[i].(provide := k) else ps[i])
  }

  function Decorate(ps: seq<Provider>, d: Decorator, k: Token): seq<Provider> {
    Redirect(ps, d.token, k) + [Provider(d.token, d.factory, [k] + d.dependencies)]
  }

  /** All decorators in turn, each with a token of its own. */
  function DecorateAll(ps: seq<Provider>, ds: seq<Decorator>, counter: nat): seq<Provider>
    decreases |ds|
  {
    if ds == [] then ps else DecorateAll(Decorate(ps, ds[0], Minted(counter + 1)), ds[1..], counter + 1)
  }

  /** The providers without those of the tokens ts: what resolves here does not depend on ts. */
  function Without(ps: seq<Provider>, ts: set<Token>): seq<Provider> {
    if ps == [] then []
    else
      var last := ps[|ps| - 1];
      Without(ps[..|ps| - 1], ts) + if last.provide in ts then [] else [last]
  }

  // -------------------------------------------------------------------- finding, after decorating

  lemma {:induction false} FindWithout(ps: seq<Provider>, ts: set<Token>, t: Token)
    ensures Find(Without(ps, ts), t) == if t in ts then None else Find(ps, t)
  {
    if ps != [] {
      var init, last := ps[..|ps| - 1], ps[|ps| - 1];
      FindWithout(init, ts, t);
      if last.provide !in ts {
        assert (Without(init, ts) + [last])[..|Without(init, ts)|] == Without(init, ts);
      } else {
        assert Without(init, ts) + [] == Without(init, ts);
      }
    }
  }

  lemma {:induction false} FindMember(ps: seq<Provider>, t: Token)
    requires Find(ps, t).Some?
    ensures Find(ps, t).value in ps && Find(ps, t).value.provide == t
  {
    if ps[|ps| - 1].provide != t {
      FindMember(ps[..|ps| - 1], t);
    }
  }

  lemma {:induction false} FindRedirected(ps: seq<Provider>, t: Token, k: Token, x: Token)
    requires Find(ps, k).None?
    ensures Find(Redirect(ps, t, k), x) ==
            if x == k then (match Find(ps, t) case Some(p) => Some(p.(provide := k)) case None => None)
            else if x == t then None
            else Find(ps, x)
  {
    if ps != [] {
      var init := ps[..|ps| - 1];
      FindRedirected(init, t, k, x);
      assert Redirect(ps, t, k)[..|ps| - 1] == Redirect(init, t, k);
    }
  }

  lemma {:induction false} FindDecorated(ps: seq<Provider>, d: Decorator, k: Token, x: Token)
    requires Find(ps, k).None?
    ensures Find(Decorate(ps, d, k), x) ==
            if x == d.token then Some(Provider(d.token, d.factory, [k] + d.dependencies))
            else if x == k then (match Find(ps, d.token) case Some(p) => Some(p.(provide := k)) case None => None)
            else Find(ps, x)
  {
    FindRedirected(ps, d.token, k, x);
    var r := Redirect(ps, d.token, k);
    assert Decorate(ps, d, k)[..|r|] == r;
  }

  // ----------------------------------------------------------------------- resolving, in general

  /** Whatever `a` finds, `b` finds as well. */
  ghost predicate FindsMore(a: seq<Provider>, b: seq<Provider>) {
    forall t | Find(a, t).Some? :: Find(b, t) == Find(a, t)
  }

  lemma {:induction false} ResolveMore(a: seq<Provider>, b: seq<Provider>, t: Token, depth: nat, more: nat)
    requires FindsMore(a, b) && depth <= more && Resolve(a, t, depth).Some?
    ensures Resolve(b, t, more) == Resolve(a, t, depth)
    decreases depth, 0
  {
    ResolveAllMore(a, b, Find(a, t).value.deps, depth - 1, more - 1);
  }

  lemma {:induction false} ResolveAllMore(a: seq<Provider>, b: seq<Provider>, ts: seq<Token>, depth: nat, more: nat)
    requires FindsMore(a, b) && depth <= more && ResolveAll(a, ts, depth).Some?
    ensures ResolveAll(b, ts, more) == ResolveAll(a, ts, depth)
    decreases depth, 1, |ts|
  {
    if ts != [] {
      ResolveMore(a, b, ts[0], depth, more);
      ResolveAllMore(a, b, ts[1..], depth, more);
    }
  }

  lemma {:induction false} WithoutFindsLess(ps: seq<Provider>, ts: set<Token>)
    ensures FindsMore(Without(ps, ts), ps)
  {
    forall t | Find(Without(ps, ts), t).Some? ensures Find(ps, t) == Find(Without(ps, ts), t) {
      FindWithout(ps, ts, t);
    }
  }

  // ------------------------------------------------------------- what decorators do to providers

  /** No provider of ps has a token minted after `counter`, and none of ts is such a token. */
  ghost predicate Fresh(ps: seq<Provider>, ts: set<Token>, counter: nat) {
    forall n | n > counter :: Find(ps, Minted(n)).None? && Minted(n) !in ts
  }

  lemma {:induction false} DecorateFresh(ps: seq<Provider>, d: Decorator, ts: set<Token>, counter: nat)
    requires Fresh(ps, ts, counter) && d.token in ts
    ensures Fresh(Decorate(ps, d, Minted(counter + 1)), ts, counter + 1)
  {
    forall n | n > counter + 1
      ensures Find(Decorate(ps, d, Minted(counter + 1)), Minted(n)).None? && Minted(n) !in ts
    {
      FindDecorated(ps, d, Minted(counter + 1), Minted(n));
    }
  }

  function TokensOf(ds: seq<Decorator>): set<Token> {
    set d | d in ds :: d.token
  }

  /** The tokens that were there before the decorators minted theirs. */
  predicate Old(t: Token, counter: nat) {
    t.Minted? ==> t.number <= counter
  }

  /** Every token that a provider or a decorator mentions was there before. */
  ghost predicate Settled(ps: seq<Provider>, ds: seq<Decorator>, counter: nat) {
    && (forall p | p in ps :: Old(p.provide, counter) && forall t | t in p.deps :: Old(t, counter))
    && (forall d | d in ds :: Old(d.token, counter) && forall t | t in d.dependencies :: Old(t, counter))
  }

  /** The token under which t's value by the first j decorators is found in the end: the one that the next decorator of
      t mints, or t itself if there is none. */
  function Carrier(ds: seq<Decorator>, counter: nat, t: Token, j: nat): Token
    requires j <= |ds|
    decreases |ds| - j
  {
    if j == |ds| then t else if ds[j].token == t then Minted(counter + j + 1) else Carrier(ds, counter, t, j + 1)
  }

  /** What makes the value of t: the provider but for the token it provides. */
  function Maker(ps: seq<Provider>, t: Token): Option<(string, seq<Token>)> {
    match Find(ps, t)
    case None => None
    case Some(p) => Some((p.factory, p.deps))
  }

  /** Later decorators do not touch the maker of t, they only move it to t's carrier. */
  lemma {:induction false} MakerStays(ps: seq<Provider>, ds: seq<Decorator>, counter: nat, ts: set<Token>, t: Token)
    requires Fresh(ps, ts, counter) && TokensOf(ds) <= ts && Old(t, counter)
    ensures Maker(DecorateAll(ps, ds, counter), Carrier(ds, counter, t, 0)) == Maker(ps, t)
    decreases |ds|
  {
    if ds != [] {
      var k := Minted(counter + 1);
      var qs := Decorate(ps, ds[0], k);
      PartsTokens(ds, 0, ts);
      DecorateFresh(ps, ds[0], ts, counter);
      if ds[0].token == t {
        FindDecorated(ps, ds[0], k, k);
        MakerStays(qs, ds[1..], counter + 1, ts, k);
        NotCarried(ds[1..], counter + 1, k, 0);
      } else {
        FindDecorated(ps, ds[0], k, t);
        MakerStays(qs, ds[1..], counter + 1, ts, t);
        CarrierShifts(ds, counter, t, 1);
      }
    }
  }

  lemma {:induction false} NotCarried(ds: seq<Decorator>, counter: nat, t: Token, j: nat)
    requires j <= |ds| && forall d | d in ds :: d.token != t
    ensures Carrier(ds, counter, t, j) == t
    decreases |ds| - j
  {
    if j < |ds| {
      NotCarried(ds, counter, t, j + 1);
    }
  }

  lemma {:induction false} CarrierShifts(ds: seq<Decorator>, counter: nat, t: Token, j: nat)
    requires 0 < j <= |ds|
    ensures Carrier(ds, counter, t, j) == Carrier(ds[1..], counter + 1, t, j - 1)
    decreases |ds| - j
  {
    if j < |ds| {
      CarrierShifts(ds, counter, t, j + 1);
    }
  }

  /** The decorators up to j, then the others. */
  lemma {:induction false} DecorateAllSplits(ps: seq<Provider>, ds: seq<Decorator>, counter: nat, j: nat)
    requires j < |ds|
    ensures DecorateAll(ps, ds, counter) ==
            DecorateAll(Decorate(DecorateAll(ps, ds[..j], counter), ds[j], Minted(counter + j + 1)), ds[j + 1..],
                        counter + j + 1)
    decreases j
  {
    if j == 0 {
      assert ds[..0] == [];
    } else {
      DecorateAllSplits(Decorate(ps, ds[0], Minted(counter + 1)), ds[1..], counter + 1, j - 1);
      assert ds[..j][1..] == ds[1..][..j - 1] && ds[..j][0] == ds[0];
      assert ds[1..][j..] == ds[j + 1..];
    }
  }

  lemma {:induction false} AllFresh(ps: seq<Provider>, ds: seq<Decorator>, counter: nat, ts: set<Token>)
    requires Fresh(ps, ts, counter) && TokensOf(ds) <= ts
    ensures Fresh(DecorateAll(ps, ds, counter), ts, counter + |ds|)
    decreases |ds|
  {
    if ds != [] {
      PartsTokens(ds, 0, ts);
      DecorateFresh(ps, ds[0], ts, counter);
      AllFresh(Decorate(ps, ds[0], Minted(counter + 1)), ds[1..], counter + 1, ts);
    }
  }

  lemma {:induction false} CarrierDrops(ds: seq<Decorator>, counter: nat, t: Token, j: nat, i: nat)
    requires j <= i <= |ds|
    ensures Carrier(ds, counter, t, i) == Carrier(ds[j..], counter + j, t, i - j)
    decreases |ds| - i
  {
    if i < |ds| {
      CarrierDrops(ds, counter, t, j, i + 1);
    }
  }

  /** Where the value of t by its first j decorators comes from: the j-th one, if it is t's, wraps what came before. */
  lemma {:induction false} CarriersMaker(ps: seq<Provider>, ds: seq<Decorator>, counter: nat, ts: set<Token>,
                                         t: Token, j: nat)
    requires Fresh(ps, ts, counter) && TokensOf(ds) <= ts && j <= |ds| && Old(t, counter)
    ensures var made := Maker(DecorateAll(ps, ds, counter), Carrier(ds, counter, t, j));
            if j == 0 then made == Maker(ps, t)
            else if ds[j - 1].token == t then
              && Carrier(ds, counter, t, j - 1) == Minted(counter + j)
              && made == Some((ds[j - 1].factory, [Minted(counter + j)] + ds[j - 1].dependencies))
            else Carrier(ds, counter, t, j) == Carrier(ds, counter, t, j - 1)
  {
    if j == 0 {
      MakerStays(ps, ds, counter, ts, t);
    } else if ds[j - 1].token == t {
      OwnMaker(ps, ds, counter, ts, t, j - 1);
    }
  }

  lemma {:induction false} OwnMaker(ps: seq<Provider>, ds: seq<Decorator>, counter: nat, ts: set<Token>, t: Token,
                                    i: nat)
    requires Fresh(ps, ts, counter) && TokensOf(ds) <= ts && i < |ds| && ds[i].token == t && Old(t, counter)
    ensures Maker(DecorateAll(ps, ds, counter), Carrier(ds, counter, t, i + 1))
         == Some((ds[i].factory, [Minted(counter + i + 1)] + ds[i].dependencies))
  {
    var k := Minted(counter + i + 1);
    var qs := DecorateAll(ps, ds[..i], counter);
    var rs := Decorate(qs, ds[i], k);
    PartsTokens(ds, i, ts);
    AllFresh(ps, ds[..i], counter, ts);
    DecorateFresh(qs, ds[i], ts, counter + i);
    FindDecorated(qs, ds[i], k, t);
    MakerStays(rs, ds[i + 1..], counter + i + 1, ts, t);
    DecorateAllSplits(ps, ds, counter, i);
    CarrierDrops(ds, counter, t, i + 1, i + 1);
  }

  lemma {:induction false} PartsTokens(ds: seq<Decorator>, i: nat, ts: set<Token>)
    requires i < |ds| && TokensOf(ds) <= ts
    ensures TokensOf(ds[..i]) <= ts && TokensOf(ds[i + 1..]) <= ts && ds[i].token in ts
  {
    assert ds[i].token in TokensOf(ds);
    assert TokensOf(ds[..i]) <= TokensOf(ds) && TokensOf(ds[i + 1..]) <= TokensOf(ds);
  }

  // ------------------------------------------------------------------------------ main results

  predicate Own(ds: seq<Decorator>, t: Token, i: nat)
    requires i < |ds|
  {
    ds[i].token == t
  }

  /** v wrapped by those of the first j decorators that are t's, in order, their dependencies resolved in qs. */
  ghost function WrappedBy(qs: seq<Provider>, ds: seq<Decorator>, j: nat, t: Token, v: Value, depth: nat): Value
    requires j <= |ds| && OwnResolve(qs, ds, j, t, depth)
  {
    if j == 0 then v
    else
      var inner := WrappedBy(qs, ds, j - 1, t, v, depth);
      if Own(ds, t, j - 1) then Built(ds[j - 1].factory, [inner] + ResolveAll(qs, ds[j - 1].dependencies, depth).value)
      else inner
  }

  /** The dependencies of t's own decorators resolve in qs. */
  ghost predicate OwnResolve(qs: seq<Provider>, ds: seq<Decorator>, j: nat, t: Token, depth: nat)
    requires j <= |ds|
  {
    forall i | 0 <= i < j && Own(ds, t, i) :: ResolveAll(qs, ds[i].dependencies, depth).Some?
  }

  /** A decorating provider resolves as soon as what it wraps and its other dependencies do. */
  lemma {:induction false} ResolveWrapper(qs: seq<Provider>, t: Token, d: Decorator, k: Token, depth: nat, less: nat)
    requires Maker(qs, t) == Some((d.factory, [k] + d.dependencies)) && less <= depth
    requires Resolve(qs, k, depth).Some? && ResolveAll(qs, d.dependencies, less).Some?
    ensures var v, args := Resolve(qs, k, depth).value, ResolveAll(qs, d.dependencies, less).value;
            Resolve(qs, t, depth + 1) == Some(Built(d.factory, [v] + args))
  {
    var deps := [k] + d.dependencies;
    assert deps[0] == k && deps[1..] == d.dependencies;
    ResolveAllMore(qs, qs, d.dependencies, less, depth);
    ResolveMaker(qs, t, d.factory, deps, depth);
  }

  lemma {:induction false} ResolveMaker(qs: seq<Provider>, t: Token, factory: string, deps: seq<Token>, depth: nat)
    requires Maker(qs, t) == Some((factory, deps)) && ResolveAll(qs, deps, depth).Some?
    ensures Resolve(qs, t, depth + 1) == Some(Built(factory, ResolveAll(qs, deps, depth).value))
  {
  }

  lemma {:induction false} ChainUpTo(ps: seq<Provider>, ds: seq<Decorator>, counter: nat, ts: set<Token>, t: Token,
                                     p: Provider, depth: nat, j: nat)
    requires Fresh(ps, ts, counter) && TokensOf(ds) <= ts && Find(ps, t) == Some(p) && j <= |ds|
    requires var after := DecorateAll(ps, ds, counter);
             ResolveAll(after, p.deps, depth).Some? && OwnResolve(after, ds, |ds|, t, depth)
    ensures var after := DecorateAll(ps, ds, counter);
            var v := Built(p.factory, ResolveAll(after, p.deps, depth).value);
            Resolve(after, Carrier(ds, counter, t, j), depth + j + 1) == Some(WrappedBy(after, ds, j, t, v, depth))
  {
    var after := DecorateAll(ps, ds, counter);
    CarriersMaker(ps, ds, counter, ts, t, j);
    if j == 0 {
      ResolveMaker(after, Carrier(ds, counter, t, 0), p.factory, p.deps, depth);
    } else {
      ChainUpTo(ps, ds, counter, ts, t, p, depth, j - 1);
      if Own(ds, t, j - 1) {
        ResolveWrapper(after, Carrier(ds, counter, t, j), ds[j - 1], Minted(counter + j), depth + j, depth);
      } else {
        ResolveMore(after, after, Carrier(ds, counter, t, j), depth + j, depth + j + 1);
      }
    }
  }

  /** If what t's provider and t's decorators depend on resolves among the decorated providers, then t resolves to its
      provider's value, wrapped by its own decorators in order of registration, all on decorated dependencies. */
  lemma {:induction false} DecoratorsChain(ps: seq<Provider>, ds: seq<Decorator>, counter: nat, ts: set<Token>,
                                           t: Token, p: Provider, depth: nat)
    requires Fresh(ps, ts, counter) && TokensOf(ds) <= ts && Find(ps, t) == Some(p)
    requires var after := DecorateAll(ps, ds, counter);
             ResolveAll(after, p.deps, depth).Some? && OwnResolve(after, ds, |ds|, t, depth)
    ensures var after := DecorateAll(ps, ds, counter);
            var v := Built(p.factory, ResolveAll(after, p.deps, depth).value);
            Resolve(after, t, depth + |ds| + 1) == Some(WrappedBy(after, ds, |ds|, t, v, depth))
  {
    ChainUpTo(ps, ds, counter, ts, t, p, depth, |ds|);
  }

  lemma {:induction false} ResolvedArgument(qs: seq<Provider>, ts: seq<Token>, depth: nat, i: nat)
    requires ResolveAll(qs, ts, depth).Some? && i < |ts|
    ensures Resolve(qs, ts[i], depth) == Some(ResolveAll(qs, ts, depth).value[i])
    decreases |ts|
  {
    if i > 0 {
      ResolvedArgument(qs, ts[1..], depth, i - 1);
    }
  }

  /** Whoever depends on t, itself decorated or not, is built from t's decorated value. */
  lemma {:induction false} DependantsGetDecorated(ps: seq<Provider>, ds: seq<Decorator>, counter: nat,
                                                  ts: set<Token>, t: Token, p: Provider, x: Token, q: Provider,
                                                  i: nat, depth: nat)
    requires Fresh(ps, ts, counter) && TokensOf(ds) <= ts && Find(ps, t) == Some(p)
    requires Find(ps, x) == Some(q) && i < |q.deps| && q.deps[i] == t
    requires var after := DecorateAll(ps, ds, counter);
             && ResolveAll(after, p.deps, depth).Some? && OwnResolve(after, ds, |ds|, t, depth)
             && OwnResolve(after, ds, |ds|, x, depth + |ds| + 1)
             && ResolveAll(after, q.deps, depth + |ds| + 1).Some?
    ensures var after := DecorateAll(ps, ds, counter);
            var inner := depth + |ds| + 1;
            var args := ResolveAll(after, q.deps, inner).value;
            && args[i] == WrappedBy(after, ds, |ds|, t, Built(p.factory, ResolveAll(after, p.deps, depth).value), depth)
            && Resolve(after, x, inner + |ds| + 1) == Some(WrappedBy(after, ds, |ds|, x, Built(q.factory, args), inner))
  {
    DecoratorsChain(ps, ds, counter, ts, t, p, depth);
    DecoratorsChain(ps, ds, counter, ts, x, q, depth + |ds| + 1);
    ResolvedArgument(DecorateAll(ps, ds, counter), q.deps, depth + |ds| + 1, i);
  }

  // -------------------------------------------------------------- the meaning of a registration

  /** What a registration of providers and decorators means, before anything is renamed: t's value after the first j
      decorators, where every dependency has the value that all decorators give it. */
  function Layer(ps: seq<Provider>, ds: seq<Decorator>, t: Token, j: nat, depth: nat): Option<Value>
    requires j <= |ds|
    decreases depth, 2, j
  {
    if j == 0 then
      match Find(ps, t)
      case None => None
      case Some(p) =>
        match MeaningAll(ps, ds, p.deps, depth)
        case None => None
        case Some(args) => Some(Built(p.factory, args))
    else if Own(ds, t, j - 1) then
      match (Layer(ps, ds, t, j - 1, depth), MeaningAll(ps, ds, ds[j - 1].dependencies, depth))
      case (Some(v), Some(args)) => Some(Built(ds[j - 1].factory, [v] + args))
      case _ => None
    else Layer(ps, ds, t, j - 1, depth)
  }

  function Meaning(ps: seq<Provider>, ds: seq<Decorator>, t: Token, depth: nat): Option<Value>
    decreases depth, 0
  {
    if depth == 0 then None else Layer(ps, ds, t, |ds|, depth - 1)
  }

  function MeaningAll(ps: seq<Provider>, ds: seq<Decorator>, ts: seq<Token>, depth: nat): Option<seq<Value>>
    decreases depth, 1, |ts|
  {
    if ts == [] then Some([])
    else
      match (Meaning(ps, ds, ts[0], depth), MeaningAll(ps, ds, ts[1..], depth))
      case (Some(v), Some(vs)) => Some([v] + vs)
      case _ => None
  }

  lemma {:induction false} LayerMore(ps: seq<Provider>, ds: seq<Decorator>, t: Token, j: nat, depth: nat, more: nat)
    requires j <= |ds| && depth <= more && Layer(ps, ds, t, j, depth).Some?
    ensures Layer(ps, ds, t, j, more) == Layer(ps, ds, t, j, depth)
    decreases depth, 1, j
  {
    if j == 0 {
      MeaningAllMore(ps, ds, Find(ps, t).value.deps, depth, more);
    } else {
      LayerMore(ps, ds, t, j - 1, depth, more);
      if Own(ds, t, j - 1) {
        MeaningAllMore(ps, ds, ds[j - 1].dependencies, depth, more);
      }
    }
  }

  lemma {:induction false} MeaningAllMore(ps: seq<Provider>, ds: seq<Decorator>, ts: seq<Token>, depth: nat, more: nat)
    requires depth <= more && MeaningAll(ps, ds, ts, depth).Some?
    ensures MeaningAll(ps, ds, ts, more) == MeaningAll(ps, ds, ts, depth)
    decreases depth, 0, |ts|
  {
    if ts != [] {
      LayerMore(ps, ds, ts[0], |ds|, depth - 1, more - 1);
      MeaningAllMore(ps, ds, ts[1..], depth, more);
    }
  }

  lemma {:induction false} SettledFresh(ps: seq<Provider>, ds: seq<Decorator>, counter: nat)
    requires Settled(ps, ds, counter)
    ensures Fresh(ps, TokensOf(ds), counter)
  {
    forall n | n > counter ensures Find(ps, Minted(n)).None? && Minted(n) !in TokensOf(ds) {
      if Find(ps, Minted(n)).Some? {
        FindMember(ps, Minted(n));
      }
    }
  }

  /** A depth of resolution that is enough for n decorators at each of `depth` levels of dependencies. */
  function Deep(n: nat, depth: nat): nat {
    if depth == 0 then 0 else Deep(n, depth - 1) + n + 1
  }

  lemma {:induction false} MeaningCarried(ps: seq<Provider>, ds: seq<Decorator>, counter: nat, t: Token, j: nat,
                                          depth: nat)
    requires Settled(ps, ds, counter) && Old(t, counter) && j <= |ds| && Layer(ps, ds, t, j, depth).Some?
    ensures Resolve(DecorateAll(ps, ds, counter), Carrier(ds, counter, t, j), Deep(|ds|, depth) + j + 1)
         == Layer(ps, ds, t, j, depth)
    decreases depth, 2, j
  {
    SettledFresh(ps, ds, counter);
    CarriersMaker(ps, ds, counter, TokensOf(ds), t, j);
    if j == 0 {
      FindMember(ps, t);
      MeaningAllCarried(ps, ds, counter, Find(ps, t).value.deps, depth);
      ProviderCarried(ps, ds, DecorateAll(ps, ds, counter), t, depth, Carrier(ds, counter, t, 0), Deep(|ds|, depth));
    } else {
      MeaningCarried(ps, ds, counter, t, j - 1, depth);
      NextCarried(ps, ds, counter, t, j, depth);
    }
  }

  lemma {:induction false} NextCarried(ps: seq<Provider>, ds: seq<Decorator>, counter: nat, t: Token, j: nat,
                                       depth: nat)
    requires Settled(ps, ds, counter) && Old(t, counter) && 0 < j <= |ds| && Layer(ps, ds, t, j, depth).Some?
    requires Resolve(DecorateAll(ps, ds, counter), Carrier(ds, counter, t, j - 1), Deep(|ds|, depth) + j)
          == Layer(ps, ds, t, j - 1, depth)
    ensures Resolve(DecorateAll(ps, ds, counter), Carrier(ds, counter, t, j), Deep(|ds|, depth) + j + 1)
         == Layer(ps, ds, t, j, depth)
    decreases depth, 1, j
  {
    var after, deep := DecorateAll(ps, ds, counter), Deep(|ds|, depth);
    SettledFresh(ps, ds, counter);
    CarriersMaker(ps, ds, counter, TokensOf(ds), t, j);
    if Own(ds, t, j - 1) {
      MeaningAllCarried(ps, ds, counter, ds[j - 1].dependencies, depth);
      WrapperCarried(ps, ds, after, t, j, depth, Carrier(ds, counter, t, j), Minted(counter + j), deep);
    } else {
      ResolveMore(after, after, Carrier(ds, counter, t, j - 1), deep + j, deep + j + 1);
    }
  }

  lemma {:induction false} ProviderCarried(ps: seq<Provider>, ds: seq<Decorator>, after: seq<Provider>, t: Token,
                                           depth: nat, carrier: Token, deep: nat)
    requires Layer(ps, ds, t, 0, depth).Some? && Maker(after, carrier) == Maker(ps, t)
    requires ResolveAll(after, Find(ps, t).value.deps, deep) == MeaningAll(ps, ds, Find(ps, t).value.deps, depth)
    ensures Resolve(after, carrier, deep + 1) == Layer(ps, ds, t, 0, depth)
  {
    ResolveMaker(after, carrier, Find(ps, t).value.factory, Find(ps, t).value.deps, deep);
  }

  lemma {:induction false} WrapperCarried(ps: seq<Provider>, ds: seq<Decorator>, after: seq<Provider>, t: Token,
                                          j: nat, depth: nat, carrier: Token, k: Token, deep: nat)
    requires 0 < j <= |ds| && Own(ds, t, j - 1) && Layer(ps, ds, t, j, depth).Some?
    requires Maker(after, carrier) == Some((ds[j - 1].factory, [k] + ds[j - 1].dependencies))
    requires Resolve(after, k, deep + j) == Layer(ps, ds, t, j - 1, depth)
    requires ResolveAll(after, ds[j - 1].dependencies, deep) == MeaningAll(ps, ds, ds[j - 1].dependencies, depth)
    ensures Resolve(after, carrier, deep + j + 1) == Layer(ps, ds, t, j, depth)
  {
    ResolveWrapper(after, carrier, ds[j - 1], k, deep + j, deep);
  }

  lemma {:induction false} MeaningAllCarried(ps: seq<Provider>, ds: seq<Decorator>, counter: nat, ts: seq<Token>,
                                             depth: nat)
    requires Settled(ps, ds, counter) && (forall t | t in ts :: Old(t, counter)) && MeaningAll(ps, ds, ts, depth).Some?
    ensures ResolveAll(DecorateAll(ps, ds, counter), ts, Deep(|ds|, depth)) == MeaningAll(ps, ds, ts, depth)
    decreases depth, 0, |ts|
  {
    if ts != [] {
      MeaningCarried(ps, ds, counter, ts[0], |ds|, depth - 1);
      MeaningAllCarried(ps, ds, counter, ts[1..], depth);
    }
  }

  lemma {:induction false} CarriedMeans(ps: seq<Provider>, ds: seq<Decorator>, counter: nat, t: Token, j: nat,
                                        depth: nat)
    requires Settled(ps, ds, counter) && Old(t, counter) && j <= |ds|
    requires Resolve(DecorateAll(ps, ds, counter), Carrier(ds, counter, t, j), depth).Some?
    ensures Layer(ps, ds, t, j, depth - 1)
         == Resolve(DecorateAll(ps, ds, counter), Carrier(ds, counter, t, j), depth)
    decreases depth, 0, j
  {
    SettledFresh(ps, ds, counter);
    CarriersMaker(ps, ds, counter, TokensOf(ds), t, j);
    if j == 0 {
      FindMember(ps, t);
      AllCarriedMean(ps, ds, counter, Find(ps, t).value.deps, depth - 1);
    } else if Own(ds, t, j - 1) {
      var d := ds[j - 1];
      var deps := [Minted(counter + j)] + d.dependencies;
      assert deps[0] == Minted(counter + j) && deps[1..] == d.dependencies;
      CarriedMeans(ps, ds, counter, t, j - 1, depth - 1);
      LayerMore(ps, ds, t, j - 1, depth - 2, depth - 1);
      AllCarriedMean(ps, ds, counter, d.dependencies, depth - 1);
    } else {
      CarriedMeans(ps, ds, counter, t, j - 1, depth);
    }
  }

  lemma {:induction false} AllCarriedMean(ps: seq<Provider>, ds: seq<Decorator>, counter: nat, ts: seq<Token>,
                                          depth: nat)
    requires Settled(ps, ds, counter) && (forall t | t in ts :: Old(t, counter))
    requires ResolveAll(DecorateAll(ps, ds, counter), ts, depth).Some?
    ensures MeaningAll(ps, ds, ts, depth) == ResolveAll(DecorateAll(ps, ds, counter), ts, depth)
    decreases depth, 1, |ts|
  {
    if ts != [] {
      CarriedMeans(ps, ds, counter, ts[0], |ds|, depth);
      AllCarriedMean(ps, ds, counter, ts[1..], depth);
    }
  }

  /** The decorated providers resolve every token to exactly what the registration means for it, dependants of decorated
      tokens included, and to nothing if it means nothing. */
  lemma {:induction false} DecorationMeans(ps: seq<Provider>, ds: seq<Decorator>, counter: nat, t: Token, v: Value)
    requires Settled(ps, ds, counter) && Old(t, counter)
    ensures ResolvesTo(DecorateAll(ps, ds, counter), t, v) <==> Means(ps, ds, t, v)
  {
    var after := DecorateAll(ps, ds, counter);
    forall n: nat | Resolve(after, t, n) == Some(v) ensures Means(ps, ds, t, v) {
      CarriedMeans(ps, ds, counter, t, |ds|, n);
      assert Meaning(ps, ds, t, n) == Some(v);
    }
    forall n: nat | Meaning(ps, ds, t, n) == Some(v) ensures ResolvesTo(after, t, v) {
      MeaningCarried(ps, ds, counter, t, |ds|, n - 1);
      var deep: nat := Deep(|ds|, n - 1) + |ds| + 1;
      assert Resolve(after, t, deep) == Some(v);
    }
  }

  ghost predicate ResolvesTo(qs: seq<Provider>, t: Token, v: Value) {
    exists depth: nat :: Resolve(qs, t, depth) == Some(v)
  }

  ghost predicate Means(ps: seq<Provider>, ds: seq<Decorator>, t: Token, v: Value) {
    exists depth: nat :: Meaning(ps, ds, t, depth) == Some(v)
  }

  /** A set of provided tokens, closed under the dependencies of providers and decorators, without a cycle. */
  ghost predicate WellFounded(ps: seq<Provider>, ds: seq<Decorator>, closed: set<Token>, rank: Token -> nat) {
    && (forall t | t in closed :: Find(ps, t).Some? && Below(closed, rank, Find(ps, t).value.deps, rank(t)))
    && (forall d | d in ds && d.token in closed :: Below(closed, rank, d.dependencies, rank(d.token)))
  }

  ghost predicate Below(closed: set<Token>, rank: Token -> nat, deps: seq<Token>, bound: nat) {
    forall x | x in deps :: x in closed && rank(x) < bound
  }

  lemma {:induction false} LayerDefined(ps: seq<Provider>, ds: seq<Decorator>, closed: set<Token>,
                                        rank: Token -> nat, t: Token, j: nat)
    requires WellFounded(ps, ds, closed, rank) && t in closed && j <= |ds|
    ensures Layer(ps, ds, t, j, rank(t)).Some?
    decreases rank(t), 1, j
  {
    if j == 0 {
      AllDefined(ps, ds, closed, rank, Find(ps, t).value.deps, rank(t));
    } else {
      LayerDefined(ps, ds, closed, rank, t, j - 1);
      if Own(ds, t, j - 1) {
        AllDefined(ps, ds, closed, rank, ds[j - 1].dependencies, rank(t));
      }
    }
  }

  lemma {:induction false} AllDefined(ps: seq<Provider>, ds: seq<Decorator>, closed: set<Token>, rank: Token -> nat,
                                      ts: seq<Token>, depth: nat)
    requires WellFounded(ps, ds, closed, rank) && Below(closed, rank, ts, depth)
    ensures MeaningAll(ps, ds, ts, depth).Some?
    decreases depth, 0, |ts|
  {
    if ts != [] {
      LayerDefined(ps, ds, closed, rank, ts[0], |ds|);
      LayerMore(ps, ds, ts[0], |ds|, rank(ts[0]), depth - 1);
      AllDefined(ps, ds, closed, rank, ts[1..], depth);
    }
  }

  /** Without a missing provider or a cyclic dependency below it, every token resolves after all decorators, and to its
      meaning: its provider's value on decorated dependencies, wrapped by its decorators in order. */
  lemma {:induction false} AcyclicResolves(ps: seq<Provider>, ds: seq<Decorator>, counter: nat, closed: set<Token>,
                                           rank: Token -> nat, t: Token)
    requires Settled(ps, ds, counter) && WellFounded(ps, ds, closed, rank) && t in closed && Old(t, counter)
    ensures var v := Meaning(ps, ds, t, rank(t) + 1);
            v.Some? && ResolvesTo(DecorateAll(ps, ds, counter), t, v.value)
  {
    LayerDefined(ps, ds, closed, rank, t, |ds|);
    var v := Meaning(ps, ds, t, rank(t) + 1).value;
    assert Means(ps, ds, t, v);
    DecorationMeans(ps, ds, counter, t, v);
  }

  lemma {:induction false} CarriedNeeds(ps: seq<Provider>, ds: seq<Decorator>, counter: nat, ts: set<Token>,
                                        t: Token, j: nat, depth: nat)
    requires Fresh(ps, ts, counter) && TokensOf(ds) <= ts && Old(t, counter) && j <= |ds|
    requires Resolve(DecorateAll(ps, ds, counter), Carrier(ds, counter, t, j), depth).Some?
    ensures var after := DecorateAll(ps, ds, counter);
            && Find(ps, t).Some? && ResolveAll(after, Find(ps, t).value.deps, depth).Some?
            && OwnResolve(after, ds, j, t, depth)
    decreases j
  {
    var after := DecorateAll(ps, ds, counter);
    CarriersMaker(ps, ds, counter, ts, t, j);
    if j == 0 {
      ResolveAllMore(after, after, Find(ps, t).value.deps, depth - 1, depth);
    } else {
      if Own(ds, t, j - 1) {
        var deps := [Minted(counter + j)] + ds[j - 1].dependencies;
        assert deps[0] == Minted(counter + j) && deps[1..] == ds[j - 1].dependencies;
        ResolveMore(after, after, Minted(counter + j), depth - 1, depth);
        ResolveAllMore(after, after, ds[j - 1].dependencies, depth - 1, depth);
      }
      CarriedNeeds(ps, ds, counter, ts, t, j - 1, depth);
    }
  }

  /** After all decorators t resolves if and only if it had a provider, and what that provider and t's own decorators
      depend on resolves. */
  lemma {:induction false} ResolvesExactlyWhen(ps: seq<Provider>, ds: seq<Decorator>, counter: nat, ts: set<Token>,
                                               t: Token)
    requires Fresh(ps, ts, counter) && TokensOf(ds) <= ts && Old(t, counter)
    ensures var after := DecorateAll(ps, ds, counter);
            (exists n: nat :: Resolve(after, t, n).Some?) <==>
            Find(ps, t).Some? &&
            exists n: nat :: ResolveAll(after, Find(ps, t).value.deps, n).Some? && OwnResolve(after, ds, |ds|, t, n)
  {
    var after := DecorateAll(ps, ds, counter);
    if n: nat :| Resolve(after, t, n).Some? {
      CarriedNeeds(ps, ds, counter, ts, t, |ds|, n);
    }
    if Find(ps, t).Some? {
      var p := Find(ps, t).value;
      if n: nat :| ResolveAll(after, p.deps, n).Some? && OwnResolve(after, ds, |ds|, t, n) {
        DecoratorsChain(ps, ds, counter, ts, t, p, n);
      }
    }
  }

  /** Decorating a token that has no provider is accepted, and leaves it without a value at any depth. */
  lemma {:induction false} UndecoratableStaysUnresolved(ps: seq<Provider>, ds: seq<Decorator>, counter: nat,
                                                        ts: set<Token>, t: Token, depth: nat)
    requires Fresh(ps, ts, counter) && TokensOf(ds) <= ts && Old(t, counter) && Find(ps, t).None?
    ensures Resolve(DecorateAll(ps, ds, counter), t, depth).None?
  {
    if Resolve(DecorateAll(ps, ds, counter), t, depth).Some? {
      CarriedNeeds(ps, ds, counter, ts, t, |ds|, depth);
    }
  }

  // ------------------------------------------------------- what does not depend on decorated tokens

  lemma {:induction false} OthersFound(ps: seq<Provider>, ds: seq<Decorator>, counter: nat, ts: set<Token>)
    requires Fresh(ps, ts, counter) && TokensOf(ds) <= ts
    ensures FindsMore(Without(ps, ts), DecorateAll(ps, ds, counter))
  {
    var after := DecorateAll(ps, ds, counter);
    forall t | Find(Without(ps, ts), t).Some? ensures Find(after, t) == Find(Without(ps, ts), t) {
      FindWithout(ps, ts, t);
      MakerStays(ps, ds, counter, ts, t);
      forall d | d in ds ensures d.token != t {
        assert d.token in TokensOf(ds);
      }
      NotCarried(ds, counter, t, 0);
      FindMember(ps, t);
      FindMember(after, t);
    }
  }

  /** Tokens that do not depend on a decorated one resolve as before. */
  lemma {:induction false} OthersResolveAsBefore(ps: seq<Provider>, ds: seq<Decorator>, counter: nat, ts: set<Token>,
                                                 x: Token, depth: nat)
    requires Fresh(ps, ts, counter) && TokensOf(ds) <= ts
    requires Resolve(Without(ps, ts), x, depth).Some?
    ensures Resolve(DecorateAll(ps, ds, counter), x, depth) == Resolve(ps, x, depth)
  {
    WithoutFindsLess(ps, ts);
    ResolveMore(Without(ps, ts), ps, x, depth, depth);
    OthersFound(ps, ds, counter, ts);
    ResolveMore(Without(ps, ts), DecorateAll(ps, ds, counter), x, depth, depth);
  }

  /** If neither t's provider nor its decorators depend on a decorated token, t's decorators wrap its value, and all
      dependencies have the values from before. */
  lemma {:induction false} IndependentChain(ps: seq<Provider>, ds: seq<Decorator>, counter: nat, ts: set<Token>,
                                            t: Token, p: Provider, depth: nat)
    requires Fresh(ps, ts, counter) && TokensOf(ds) <= ts && Find(ps, t) == Some(p)
    requires ResolveAll(Without(ps, ts), p.deps, depth).Some? && OwnResolve(Without(ps, ts), ds, |ds|, t, depth)
    ensures var v := Built(p.factory, ResolveAll(Without(ps, ts), p.deps, depth).value);
            var wrapped := WrappedBy(Without(ps, ts), ds, |ds|, t, v, depth);
            Resolve(DecorateAll(ps, ds, counter), t, depth + |ds| + 1) == Some(wrapped)
  {
    var before, after := Without(ps, ts), DecorateAll(ps, ds, counter);
    OthersFound(ps, ds, counter, ts);
    ResolveAllMore(before, after, p.deps, depth, depth);
    SameWraps(before, after, ds, |ds|, t, Built(p.factory, ResolveAll(before, p.deps, depth).value), depth);
    DecoratorsChain(ps, ds, counter, ts, t, p, depth);
  }

  lemma {:induction false} SameWraps(a: seq<Provider>, b: seq<Provider>, ds: seq<Decorator>, j: nat, t: Token,
                                     v: Value, depth: nat)
    requires FindsMore(a, b) && j <= |ds| && OwnResolve(a, ds, j, t, depth)
    ensures OwnResolve(b, ds, j, t, depth) && WrappedBy(b, ds, j, t, v, depth) == WrappedBy(a, ds, j, t, v, depth)
  {
    if j > 0 {
      SameWraps(a, b, ds, j - 1, t, v, depth);
      if Own(ds, t, j - 1) {
        ResolveAllMore(a, b, ds[j - 1].dependencies, depth, depth);
      }
    }
  }

  // ------------------------------------------------------------------------------- requirements

  predicate Provides(ps: seq<Provider>, t: Token) {
    exists i :: 0 <= i < |ps| && ps[i].provide == t
  }

  predicate Satisfied(ps: seq<Provider>, required: seq<Token>) {
    exists i :: 0 <= i < |required| && Provides(ps, required[i])
  }

  /** Every requirement that holds before the decorators holds after them. */
  lemma {:induction false} RequirementsSurvive(ps: seq<Provider>, ds: seq<Decorator>, counter: nat,
                                               required: seq<Token>)
    requires Satisfied(ps, required)
    ensures Satisfied(DecorateAll(ps, ds, counter), required)
    decreases |ds|
  {
    if ds != [] {
      var k := Minted(counter + 1);
      var after := Decorate(ps, ds[0], k);
      var i :| 0 <= i < |required| && Provides(ps, required[i]);
      var j :| 0 <= j < |ps| && ps[j].provide == required[i];
      if ps[j].provide == ds[0].token {
        assert after[|ps|].provide == required[i];
      } else {
        assert after[j].provide == required[i];
      }
      assert Provides(after, required[i]);
      RequirementsSurvive(after, ds[1..], counter + 1, required);
    }
  }

  // --------------------------------------------------------------------- one provider per token

  /** The last provider of each token, in order. */
  function LastPerToken(ps: seq<Provider>): seq<Provider> {
    if ps == [] then []
    else if Provides(ps[1..], ps[0].provide) then LastPerToken(ps[1..])
    else [ps[0]] + LastPerToken(ps[1..])
  }

  lemma {:induction false} FindAppend(a: seq<Provider>, b: seq<Provider>, t: Token)
    ensures Find(a + b, t) == if Find(b, t).Some? then Find(b, t) else Find(a, t)
  {
    if b == [] {
      assert a + b == a;
    } else {
      FindAppend(a, b[..|b| - 1], t);
      assert (a + b)[..|a + b| - 1] == a + b[..|b| - 1];
    }
  }

  lemma {:induction false} FindsProvided(ps: seq<Provider>, t: Token)
    ensures Find(ps, t).Some? <==> Provides(ps, t)
  {
    if ps != [] {
      var init := ps[..|ps| - 1];
      FindsProvided(init, t);
      if Provides(ps, t) && ps[|ps| - 1].provide != t {
        var i :| 0 <= i < |ps| && ps[i].provide == t;
        assert init[i].provide == t;
      }
      if Provides(init, t) {
        var i :| 0 <= i < |init| && init[i].provide == t;
        assert ps[i].provide == t;
      }
    }
  }

  /** Filtering keeps one provider per token and changes no resolution. */
  lemma {:induction false} FilterKeepsFind(ps: seq<Provider>, t: Token)
    ensures Find(LastPerToken(ps), t) == Find(ps, t)
  {
    if ps != [] {
      FilterKeepsFind(ps[1..], t);
      assert ps == [ps[0]] + ps[1..];
      FindAppend([ps[0]], ps[1..], t);
      FindAppend([ps[0]], LastPerToken(ps[1..]), t);
      FindsProvided(ps[1..], t);
    }
  }

  lemma {:induction false} FilterKeepsResolution(ps: seq<Provider>, t: Token, depth: nat)
    requires Resolve(ps, t, depth).Some?
    ensures Resolve(LastPerToken(ps), t, depth) == Resolve(ps, t, depth)
  {
    forall x ensures Find(LastPerToken(ps), x) == Find(ps, x) {
      FilterKeepsFind(ps, x);
    }
    ResolveMore(ps, LastPerToken(ps), t, depth, depth);
  }

  lemma {:induction false} FilterKeepsOne(ps: seq<Provider>)
    ensures forall i, j | 0 <= i < j < |LastPerToken(ps)| :: LastPerToken(ps)[i].provide != LastPerToken(ps)[j].provide
  {
    if ps != [] {
      FilterKeepsOne(ps[1..]);
      var rest := LastPerToken(ps[1..]);
      if !Provides(ps[1..], ps[0].provide) {
        FindsProvided(ps[1..], ps[0].provide);
        FilterKeepsFind(ps[1..], ps[0].provide);
        FindsProvided(rest, ps[0].provide);
      }
    }
  }

  /** The positions of the kept providers: the last of each token, in order. */
  function KeptFrom(ps: seq<Provider>, i: nat): seq<nat>
    requires i <= |ps|
    decreases |ps| - i
  {
    if i == |ps| then []
    else (if Provides(ps[i + 1..], ps[i].provide) then [] else [i]) + KeptFrom(ps, i + 1)
  }

  /** Filtering keeps the order: what is kept stands as it stood. */
  lemma {:induction false} FilterKeepsOrder(ps: seq<Provider>, i: nat)
    requires i <= |ps|
    ensures var kept := KeptFrom(ps, i);
            && (forall a, b | 0 <= a < b < |kept| :: kept[a] < kept[b])
            && (forall a | 0 <= a < |kept| :: i <= kept[a] < |ps|)
            && LastPerToken(ps[i..]) == seq(|kept|, a requires 0 <= a < |kept| => ps[kept[a]])
    decreases |ps| - i
  {
    if i < |ps| {
      FilterKeepsOrder(ps, i + 1);
      assert ps[i..][0] == ps[i] && ps[i..][1..] == ps[i + 1..];
    }
  }
}
