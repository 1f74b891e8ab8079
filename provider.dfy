/** `FiltersProvider` as an object: the filters cell, the defaults ref and the
    URL search parameters are fields that its callbacks update in place. */
module Provider {
  import opened Values
  import opened Store

  class FiltersProvider {
    /** The `filters` cell, written through `setFilters`. */
    var filters: FilterSet
    /** `defaultValueRef.current`. */
    var defaults: FilterSet
    /** The URL search parameters, read from `window.location.search` and
        written through `setSearchParams`, taken to be one and the same
        query string. */
    var query: Query
    /** The props and the query-string library the callbacks close over. */
    const config: Config

    /** The three fields as one store state. */
    function Snapshot(): State
      reads this
    {
      State(filters, defaults, query)
    }

    /** Mounting the provider: the defaults ref starts out as the initial
        filters. */
    constructor (initial: FilterSet, location: Query, config: Config)
      ensures Snapshot() == Init(initial, location)
      ensures this.config == config
    {
      filters := initial;
      defaults := initial;
      query := location;
      this.config := config;
    }

    /** `register(name, defaultValue)`. */
    method Register(name: string, defaultValue: Value)
      modifies this
      ensures Snapshot() == Store.Register(config, old(Snapshot()), name, defaultValue)
    {
      var searchValue := SearchGet(query, name);
      var value := defaultValue;
      if config.sync && searchValue.Some? {
        value := Decode(searchValue.value);
      }
      filters := Assign(filters, name, value);
      defaults := Assign(defaults, name, defaultValue);
    }

    /** `unregister(name)`. */
    method Unregister(name: string)
      modifies this
      ensures Snapshot() == Store.Unregister(config, old(Snapshot()), name)
    {
      filters := Omit(filters, name);
      if config.sync {
        query := Omit(query, name);
      }
    }

    /** `setValue(name, value)`. */
    method SetValue(name: string, value: Value)
      modifies this
      ensures Snapshot() == Store.SetValue(config, old(Snapshot()), name, value)
    {
      var candidate := Assign(filters, name, value);
      filters := if config.hook.Some? then config.hook.value(candidate, name) else candidate;
      if config.sync {
        var next := config.reparse(query);
        match value {
          case Nil =>
            next := Omit(next, name);
          case Str(s) =>
            next := Assign(next, name, s);
          case List(items) =>
            next := Omit(next, name) + config.layout(name, items);
        }
        query := next;
      }
    }

    /** `reset()`. */
    method Reset()
      modifies this
      ensures Snapshot() == Store.Reset(config, old(Snapshot()))
    {
      filters := if config.hook.Some? then config.hook.value(defaults, ClearReason) else defaults;
      if config.sync {
        query := map[];
      }
    }

    /** The raw `setFilters` setter, replacing the filters wholesale. */
    method SetFilters(next: FilterSet)
      modifies this
      ensures Snapshot() == Store.SetFilters(old(Snapshot()), next)
    {
      filters := next;
    }

    /** `getValue(name)`: the filters cell is always an object here, so a
        missing field reads as undefined (None). */
    method GetValue(name: string) returns (r: Option<Value>)
      ensures r.Some? <==> name in filters
      ensures r.Some? ==> r.value == filters[name]
    {
      r := Store.GetValue(Some(filters), name);
    }

    /** `isResetDisabled`. */
    method IsResetDisabled() returns (r: bool)
      ensures r <==> filters == defaults
    {
      r := Store.IsResetDisabled(Snapshot());
    }
  }

  /** The text-filter walk-through driven through the object: register with
      default "" while the URL has no such parameter, set "foo", unregister. */
  method SearchFieldWalkthrough(location: Query, reparse: Query -> Query, layout: (string, seq<string>) -> Query)
    requires "search" !in location
  {
    var p := new FiltersProvider(map[], location, Config(true, None, reparse, layout));
    var disabled := p.IsResetDisabled();
    assert disabled;
    p.Register("search", Str(""));
    var v := p.GetValue("search");
    assert v == Some(Str(""));
    disabled := p.IsResetDisabled();
    assert disabled;
    p.SetValue("search", Str("foo"));
    assert p.query["search"] == "foo";
    disabled := p.IsResetDisabled();
    assert !disabled;
    p.Unregister("search");
    assert "search" !in p.query;
    v := p.GetValue("search");
    assert v == None;
    p.Reset();
    v := p.GetValue("search");
    assert v == Some(Str(""));
  }
}
