// The in-memory registry of LLM providers, keyed by provider name.
module ProviderRegistry {
  import opened Wrappers
  import opened Seqs
  import opened Index
  import opened Listing
  import Values

  /** Provider metadata; `extra_config` is kept as an uninterpreted dict. */
  datatype ProviderMetadata = ProviderMetadata(
    name: string,
    displayName: string,
    description: Option<string>,
    website: Option<string>,
    apiDocUrl: Option<string>,
    logoUrl: Option<string>,
    isActive: bool,
    supportedFeatures: seq<string>,
    defaultBaseUrl: Option<string>,
    isAggregator: bool,
    aggregatorType: Option<string>,
    modelNameFormat: Option<string>,
    extraConfig: Values.Dict)

  /** `order` is the dict's insertion order and every provider sits under its own name. */
  ghost predicate Consistent(providers: map<string, ProviderMetadata>, order: seq<string>)
  {
    && Ordered(order, providers)
    && (forall n :: n in providers ==> providers[n].name == n)
  }

  lemma RegisterConsistent(providers: map<string, ProviderMetadata>, order: seq<string>, p: ProviderMetadata)
    requires Consistent(providers, order) && p.name !in providers
    ensures Consistent(providers[p.name := p], order + [p.name])
  {
    OrderedAppend(order, providers, p.name, p);
  }

  lemma UnregisterConsistent(providers: map<string, ProviderMetadata>, order: seq<string>, name: string)
    requires Consistent(providers, order)
    ensures Consistent(providers - {name}, RemoveFirst(order, name))
  {
    OrderedRemove(order, providers, name);
  }

  /** The filter of `list`: no argument keeps every provider. */
  predicate Keep(p: ProviderMetadata, isActive: Option<bool>)
  {
    isActive.None? || p.isActive == isActive.value
  }

  function KeepFor(isActive: Option<bool>): ProviderMetadata -> bool
  {
    (p: ProviderMetadata) => Keep(p, isActive)
  }

  /**
   * `list` returns exactly the registered providers that pass the filter;
   * without an argument, every registered provider.
   */
  lemma ListExact(providers: map<string, ProviderMetadata>, order: seq<string>, isActive: Option<bool>,
                  p: ProviderMetadata)
    requires Consistent(providers, order)
    ensures p in Pick(providers, order, KeepFor(isActive)) <==>
      p in providers.Values && (isActive.None? || p.isActive == isActive.value)
  {
    if p in providers.Values && Keep(p, isActive) {
      var n :| n in providers && providers[n] == p;
      PickComplete(providers, order, KeepFor(isActive), n);
    }
  }

  class Registry {
    var providers: map<string, ProviderMetadata>
    var order: seq<string>

    ghost predicate Valid()
      reads this
    {
      Consistent(providers, order)
    }

    constructor ()
      ensures Valid() && providers == map[] && order == []
    {
      providers, order := map[], [];
    }

    /** `register`: a known name is refused; otherwise the provider is stored and returned. */
    method Register(p: ProviderMetadata) returns (r: Result<ProviderMetadata>)
      requires Valid()
      modifies this
      ensures Valid()
      ensures old(p.name in providers) ==> r == Err("Provider " + p.name + " already registered") && unchanged(this)
      ensures !old(p.name in providers) ==>
        r == Ok(p) && providers == old(providers)[p.name := p] && order == old(order) + [p.name]
    {
      if p.name in providers {
        return Err("Provider " + p.name + " already registered");
      }
      RegisterConsistent(providers, order, p);
      providers, order := providers[p.name := p], order + [p.name];
      r := Ok(p);
    }

    function Get(name: string): (r: Option<ProviderMetadata>)
      reads this
      ensures r.Some? <==> name in providers
      ensures r.Some? ==> r.value == providers[name]
    {
      if name in providers then Some(providers[name]) else None
    }

    /** `list`: the registered providers in insertion order, filtered by `is_active` when it is given. */
    method List(isActive: Option<bool>) returns (result: seq<ProviderMetadata>)
      ensures result == Pick(providers, order, KeepFor(isActive))
    {
      result := Collect(providers, order, KeepFor(isActive));
    }

    /** `unregister`: true exactly when the name was registered, which it no longer is. */
    method Unregister(name: string) returns (removed: bool)
      requires Valid()
      modifies this
      ensures Valid()
      ensures removed == (name in old(providers))
      ensures !removed ==> unchanged(this)
      ensures removed ==> providers == old(providers) - {name} && order == RemoveFirst(old(order), name)
    {
      if name !in providers {
        return false;
      }
      UnregisterConsistent(providers, order, name);
      providers, order := providers - {name}, RemoveFirst(order, name);
      return true;
    }
  }
}
