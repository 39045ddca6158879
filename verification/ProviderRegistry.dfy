/** The provider registry as an object, and the filter that keeps one provider per token. */
module ProviderRegistry {
  import opened Wrappers
  import opened Decoration

  class SimpleProviderRegistry {
    var providers: seq<Provider>
    var decorators: seq<Decorator>
    var validations: seq<seq<Token>>
    var counter: nat

    constructor (counter: nat)
      ensures providers == [] && decorators == [] && validations == [] && this.counter == counter
    {
      providers, decorators, validations, this.counter := [], [], [], counter;
    }

    method RegisterProvider(provider: Provider)
      modifies this`providers
      ensures providers == old(providers) + [provider]
    {
      providers := providers + [provider];
    }

    method RegisterDecorator(token: Token, dependencies: seq<Token>, factory: string)
      modifies this`decorators
      ensures decorators == old(decorators) + [Decorator(token, factory, dependencies)]
    {
      decorators := decorators + [Decorator(token, factory, dependencies)];
    }

    method Required(needed: seq<Token>)
      modifies this`validations
      ensures validations == old(validations) + [needed]
    {
      validations := validations + [needed];
    }

    /** The loop renames the providers of the token in place, then the decorating provider is pushed. */
    method ApplyDecorator(decorator: Decorator)
      modifies this`providers, this`counter
      ensures counter == old(counter) + 1
      ensures providers == Decorate(old(providers), decorator, Minted(old(counter) + 1))
    {
      counter := counter + 1;
      var decoreeToken := Minted(counter);
      ghost var was := providers;
      for i := 0 to |providers|
        invariant |providers| == |was| && counter == old(counter) + 1
        invariant providers[..i] == Redirect(was, decorator.token, decoreeToken)[..i]
        invariant providers[i..] == was[i..]
      {
        assert providers[i] == was[i..][0];
        if providers[i].provide == decorator.token {
          providers := providers[i := providers[i].(provide := decoreeToken)];
        }
      }
      providers := providers + [Provider(decorator.token, decorator.factory, [decoreeToken] + decorator.dependencies)];
    }

    method ApplyDecorators()
      modifies this`providers, this`counter
      ensures providers == DecorateAll(old(providers), decorators, old(counter))
      ensures counter == old(counter) + |decorators|
    {
      for i := 0 to |decorators|
        invariant DecorateAll(providers, decorators[i..], counter)
               == DecorateAll(old(providers), decorators, old(counter))
        invariant counter == old(counter) + i
      {
        assert decorators[i..][0] == decorators[i] && decorators[i..][1..] == decorators[i + 1..];
        ApplyDecorator(decorators[i]);
      }
    }

    /** The indices of the requirements that no provider meets. */
    method CheckValid() returns (errors: seq<nat>)
      ensures forall v: nat :: v in errors <==> v < |validations| && !Satisfied(providers, validations[v])
      ensures forall i, j | 0 <= i < j < |errors| :: errors[i] < errors[j]
    {
      errors := [];
      for v := 0 to |validations|
        invariant forall i | 0 <= i < |errors| :: errors[i] < v
        invariant forall i, j | 0 <= i < j < |errors| :: errors[i] < errors[j]
        invariant forall w: nat :: w in errors <==> w < v && !Satisfied(providers, validations[w])
      {
        var ok := Meets(validations[v]);
        if !ok {
          errors := errors + [v];
        }
      }
    }

    /** Some required token is among the provided ones. */
    method Meets(needed: seq<Token>) returns (ok: bool)
      ensures ok <==> Satisfied(providers, needed)
    {
      var tokens := seq(|providers|, i requires 0 <= i < |providers| reads this => providers[i].provide);
      for i := 0 to |needed|
        invariant forall j | 0 <= j < i :: !Provides(providers, needed[j])
      {
        if needed[i] in tokens {
          var j :| 0 <= j < |tokens| && tokens[j] == needed[i];
          assert providers[j].provide == needed[i];
          return true;
        }
        forall j | 0 <= j < |providers| ensures providers[j].provide != needed[i] {
          assert tokens[j] in tokens;
        }
      }
      return false;
    }

    /** Throws, with the failed requirements, before anything is decorated. Otherwise the decorated providers. */
    method GetProviders() returns (r: Result<seq<Provider>, seq<nat>>)
      modifies this`providers, this`counter
      ensures r.Ok? <==> forall v | 0 <= v < |validations| :: Satisfied(old(providers), validations[v])
      ensures r.Ok? ==> r.value == providers == DecorateAll(old(providers), decorators, old(counter))
      ensures r.Ok? ==> forall v | 0 <= v < |validations| :: Satisfied(providers, validations[v])
      ensures r.Err? ==> providers == old(providers)
    {
      var errors := CheckValid();
      if |errors| > 0 {
        assert errors[0] in errors;
        return Err(errors);
      }
      ApplyDecorators();
      forall v | 0 <= v < |validations| ensures Satisfied(providers, validations[v]) {
        assert v !in errors;
        RequirementsSurvive(old(providers), decorators, old(counter), validations[v]);
      }
      return Ok(providers);
    }
  }

  /** filterProviders: from the last provider backwards, keep one per token, then restore the order. */
  method FilterProviders(providers: seq<Provider>) returns (filtered: seq<Provider>)
    ensures filtered == LastPerToken(providers)
  {
    var kept: seq<Provider> := [];
    var i := |providers| - 1;
    while i >= 0
      invariant -1 <= i < |providers|
      invariant Reversed(kept) == LastPerToken(providers[i + 1..])
      invariant forall t :: Provides(kept, t) <==> Provides(providers[i + 1..], t)
    {
      var provider := providers[i];
      assert providers[i..][0] == provider && providers[i..][1..] == providers[i + 1..];
      var known := SomeProvides(kept, provider.provide);
      ghost var was := kept;
      if !known {
        kept := kept + [provider];
      }
      forall t ensures Provides(kept, t) <==> Provides(providers[i..], t) {
        ProvidesSnoc(was, provider, t);
        ProvidesCons(provider, providers[i + 1..], t);
        assert [provider] + providers[i + 1..] == providers[i..];
      }
      i := i - 1;
    }
    assert providers[0..] == providers;
    return Reversed(kept);
  }

  method SomeProvides(ps: seq<Provider>, t: Token) returns (found: bool)
    ensures found <==> Provides(ps, t)
  {
    for i := 0 to |ps|
      invariant forall j | 0 <= j < i :: ps[j].provide != t
    {
      if ps[i].provide == t {
        return true;
      }
    }
    return false;
  }

  function Reversed(ps: seq<Provider>): seq<Provider> {
    if ps == [] then [] else [ps[|ps| - 1]] + Reversed(ps[..|ps| - 1])
  }

  lemma ProvidesSnoc(ps: seq<Provider>, p: Provider, t: Token)
    ensures Provides(ps + [p], t) <==> Provides(ps, t) || p.provide == t
  {
    var all := ps + [p];
    assert all[|ps|] == p;
    if i :| 0 <= i < |ps| && ps[i].provide == t {
      assert all[i].provide == t;
    }
    if i :| 0 <= i < |all| && all[i].provide == t {
      assert i < |ps| ==> ps[i].provide == t;
    }
  }

  lemma ProvidesCons(p: Provider, ps: seq<Provider>, t: Token)
    ensures Provides([p] + ps, t) <==> Provides(ps, t) || p.provide == t
  {
    var all := [p] + ps;
    assert all[0] == p;
    if i :| 0 <= i < |ps| && ps[i].provide == t {
      assert all[i + 1].provide == t;
    }
    if i :| 0 <= i < |all| && all[i].provide == t {
      assert i > 0 ==> ps[i - 1].provide == t;
    }
  }
}
