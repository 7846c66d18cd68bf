/** The adapter manager: a registry of adapter classes by name and a cache of the instances built
    from them. Both module-level dicts are fields of one object here. */
module AdapterManager {
  import opened Wrappers
  import opened OpenLigaDb

  /** An adapter class that can be registered; the provider has one. */
  datatype AdapterClass = OpenLigaDbClass

  class Manager {
    /** `_adapter_registry` */
    var registry: map<string, AdapterClass>
    /** `_adapters` */
    var adapters: map<string, OpenLigaDbAdapter>

    /** Both dicts start empty. */
    constructor ()
      ensures registry == map[] && adapters == map[]
    {
      registry := map[];
      adapters := map[];
    }

    /** `register_adapter(name, cls)`: stores the class under the name, replacing an earlier one;
        the instance cache is untouched. */
    method RegisterAdapter(name: string, cls: AdapterClass)
      modifies this`registry
      ensures registry == old(registry)[name := cls]
      ensures name in registry && registry[name] == cls
      ensures forall other :: other != name && other in old(registry) ==> other in registry && registry[other] == old(registry)[other]
    {
      registry := registry[name := cls];
    }

    /** `get_adapter(name, settings)`: the cached instance when there is one, whatever the settings
        and whatever was registered since; otherwise a new instance of the registered class, built
        from these settings and cached. `None` is the `KeyError` of a name neither cached nor
        registered. */
    method GetAdapter(name: string, settings: Settings) returns (r: Option<OpenLigaDbAdapter>)
      modifies this`adapters
      ensures name in old(adapters) ==> r == Some(old(adapters)[name]) && adapters == old(adapters)
      ensures name !in old(adapters) && name in registry ==>
        && r.Some? && fresh(r.value) && r.value.settings == settings && r.value.Valid()
        && r.value.rateLimiter.requests == [] && r.value.client == null
        && adapters == old(adapters)[name := r.value]
      ensures name !in old(adapters) && name !in registry ==> r.None? && adapters == old(adapters)
      ensures r.Some? ==> name in adapters && adapters[name] == r.value
    {
      if name !in adapters {
        if name !in registry {
          return None;
        }
        match registry[name]
        case OpenLigaDbClass =>
          var adapter := new OpenLigaDbAdapter(settings);
          adapters := adapters[name := adapter];
      }
      r := Some(adapters[name]);
    }
  }
}
