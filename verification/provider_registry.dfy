/** The domain registry of source-provider constructors
    (internal/provider/registry.go): a map from domain name to constructor
    that provider packages fill at start-up. The package-level map is the
    explicit `reg` argument; the constructor type is a parameter. */
module ProviderRegistry {
  import opened Results

  type Registry<F> = map<string, F>

  /** The registry before any `Register` call. */
  function Empty<F>(): (reg: Registry<F>)
    ensures forall name :: Get(reg, name).None?
  {
    map[]
  }

  /** `Get`: the constructor registered under exactly `name`, or nothing
      (Go's nil). */
  function Get<F>(reg: Registry<F>, name: string): (r: Option<F>)
    ensures r.Some? <==> name in reg
    ensures r.Some? ==> r.value == reg[name]
  {
    if name in reg then Some(reg[name]) else None
  }

  /** `Register`: `domain` now yields `f`; every other name is as before. */
  function Register<F>(reg: Registry<F>, domain: string, f: F): (reg': Registry<F>)
    ensures Get(reg', domain) == Some(f)
    ensures forall name :: name != domain ==> Get(reg', name) == Get(reg, name)
  {
    reg[domain := f]
  }

  /** Registering a domain twice keeps only the last constructor. */
  lemma RegisterLastWins<F>(reg: Registry<F>, domain: string, f: F, g: F)
    ensures Register(Register(reg, domain, f), domain, g) == Register(reg, domain, g)
  {
  }

  /** Registrations of distinct domains commute. */
  lemma RegisterCommutes<F>(reg: Registry<F>, d: string, f: F, e: string, g: F)
    requires d != e
    ensures Register(Register(reg, d, f), e, g) == Register(Register(reg, e, g), d, f)
  {
  }
}
