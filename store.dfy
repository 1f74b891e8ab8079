/** The filter-state store of `FiltersProvider` with the UI framework taken
    away: the current filters, the defaults recorded at registration, and the
    URL query parameters, and the transition each operation makes on them. */
module Store {
  import opened Values

  /** Filter name to value. */
  type FilterSet = map<string, Value>

  /** The URL query parameters, read as a flat name-to-string mapping.
      `register` reads them from `window.location.search` and the other calls
      through the router's search params; the model takes both to be the same
      query string, as they are under a browser-history router. */
  type Query = map<string, string>

  /** The pre-commit hook `onBeforStateChange(candidate, nameOrReason)`, taken
      to be a pure function that returns a filter set: it neither changes its
      argument in place nor returns null. */
  type Hook = (FilterSet, string) -> FilterSet

  /** The provider's props, and the two steps of the query-string library that
      `setValue` relies on and whose behaviour the model does not fix. */
  datatype Config = Config(
    sync: bool,                               // syncSearchParams
    hook: Option<Hook>,                       // onBeforStateChange, when given
    reparse: Query -> Query,                  // qs.parse(qs.stringify(prev)) on the previous parameters
    layout: (string, seq<string>) -> Query)   // the parameters qs.stringify emits for a list under a name

  /** The three pieces of state: `filters`, `defaultValueRef.current` and the
      URL search parameters. */
  datatype State = State(filters: FilterSet, defaults: FilterSet, query: Query)

  /** The reason `reset` hands to the pre-commit hook. */
  const ClearReason := "clear"

  /** m and m' hold the same entries under every key other than k. */
  ghost predicate AgreeExcept<V>(m: map<string, V>, m': map<string, V>, k: string)
  {
    forall j :: j != k ==> (j in m <==> j in m') && (j in m && j in m' ==> m[j] == m'[j])
  }

  /** The object spread `{ ...m, [k]: v }`. */
  function Assign<V(==)>(m: map<string, V>, k: string, v: V): (r: map<string, V>)
    ensures k in r && r[k] == v
    ensures AgreeExcept(r, m, k)
  {
    m[k := v]
  }

  /** The rest-destructuring `const { [k]: _, ...rest } = m`. */
  function Omit<V(==)>(m: map<string, V>, k: string): (r: map<string, V>)
    ensures k !in r
    ensures AgreeExcept(r, m, k)
  {
    m - {k}
  }

  /** `new URLSearchParams(window.location.search).get(name)`: None is null. */
  function SearchGet(q: Query, name: string): (r: Option<string>)
    ensures r.Some? <==> name in q
    ensures r.Some? ==> r.value == q[name]
  {
    if name in q then Some(q[name]) else None
  }

  /** The value `register` gives a field: the URL's value, comma-decoded, when
      sync is on and the URL carries the parameter; the default otherwise. */
  function Seed(sync: bool, searchValue: Option<string>, defaultValue: Value): (v: Value)
    ensures sync && searchValue.Some? && ',' in searchValue.value ==> v == List(Split(searchValue.value))
    ensures sync && searchValue.Some? && ',' !in searchValue.value ==> v == Str(searchValue.value)
    ensures !sync || searchValue.None? ==> v == defaultValue
  {
    if sync && searchValue.Some? then Decode(searchValue.value) else defaultValue
  }

  /** The state that gets committed: the candidate itself, or whatever the
      pre-commit hook returns for it. */
  function Commit(hook: Option<Hook>, candidate: FilterSet, reason: string): (r: FilterSet)
    ensures hook.None? ==> r == candidate
    ensures hook.Some? ==> r == hook.value(candidate, reason)
  {
    match hook
    case None => candidate
    case Some(h) => h(candidate, reason)
  }

  /** The URL parameters `setValue` writes under sync: the previous parameters
      after the query-string round trip, with `name` dropped for a null value,
      set for a string, and replaced by the library's layout for a list. */
  function QueryAfterSet(c: Config, q: Query, name: string, value: Value): (r: Query)
    ensures value.Nil? ==> name !in r && AgreeExcept(r, c.reparse(q), name)
    ensures value.Str? ==> name in r && r[name] == value.s && AgreeExcept(r, c.reparse(q), name)
    ensures value.List? ==> forall k :: k in c.layout(name, value.items) ==> k in r && r[k] == c.layout(name, value.items)[k]
    ensures value.List? ==> forall k :: k !in c.layout(name, value.items) ==> (k in r <==> k in c.reparse(q) && k != name)
    ensures value.List? ==> forall k :: k in r && k !in c.layout(name, value.items) ==> r[k] == c.reparse(q)[k]
  {
    var base := c.reparse(q);
    match value
    case Nil => Omit(base, name)
    case Str(s) => Assign(base, name, s)
    case List(items) => Omit(base, name) + c.layout(name, items)
  }

  /** The store as the provider creates it: the defaults start as the initial
      filters. */
  function Init(initial: FilterSet, location: Query): (s: State)
    ensures s.filters == initial && s.query == location
    ensures s.defaults == s.filters
  {
    State(initial, initial, location)
  }

  /** `register(name, defaultValue)`. */
  function Register(c: Config, s: State, name: string, defaultValue: Value): (t: State)
    ensures name in t.filters && t.filters[name] == Seed(c.sync, SearchGet(s.query, name), defaultValue)
    ensures AgreeExcept(t.filters, s.filters, name)
    ensures name in t.defaults && t.defaults[name] == defaultValue
    ensures AgreeExcept(t.defaults, s.defaults, name)
    ensures t.query == s.query
  {
    var value := Seed(c.sync, SearchGet(s.query, name), defaultValue);
    State(Assign(s.filters, name, value), Assign(s.defaults, name, defaultValue), s.query)
  }

  /** `unregister(name)`. */
  function Unregister(c: Config, s: State, name: string): (t: State)
    ensures name !in t.filters && AgreeExcept(t.filters, s.filters, name)
    ensures t.defaults == s.defaults
    ensures c.sync ==> name !in t.query && AgreeExcept(t.query, s.query, name)
    ensures !c.sync ==> t.query == s.query
  {
    State(Omit(s.filters, name), s.defaults, if c.sync then Omit(s.query, name) else s.query)
  }

  /** `setValue(name, value)`. */
  function SetValue(c: Config, s: State, name: string, value: Value): (t: State)
    ensures c.hook.None? ==> name in t.filters && t.filters[name] == value && AgreeExcept(t.filters, s.filters, name)
    ensures c.hook.Some? ==> t.filters == c.hook.value(s.filters[name := value], name)
    ensures t.defaults == s.defaults
    ensures c.sync ==> t.query == QueryAfterSet(c, s.query, name, value)
    ensures !c.sync ==> t.query == s.query
  {
    var filters := Commit(c.hook, Assign(s.filters, name, value), name);
    State(filters, s.defaults, if c.sync then QueryAfterSet(c, s.query, name, value) else s.query)
  }

  /** `reset()`. */
  function Reset(c: Config, s: State): (t: State)
    ensures c.hook.None? ==> t.filters == s.defaults
    ensures c.hook.Some? ==> t.filters == c.hook.value(s.defaults, ClearReason)
    ensures t.defaults == s.defaults
    ensures c.sync ==> t.query == map[]
    ensures !c.sync ==> t.query == s.query
  {
    State(Commit(c.hook, s.defaults, ClearReason), s.defaults, if c.sync then map[] else s.query)
  }

  /** The raw `setFilters` escape hatch, used to replace the filters wholesale. */
  function SetFilters(s: State, next: FilterSet): (t: State)
    ensures t.filters == next
    ensures t.defaults == s.defaults && t.query == s.query
  {
    State(next, s.defaults, s.query)
  }

  /** `getValue(name)`, given the filters cell, which JavaScript lets be
      nullish: None stands for undefined and Some(Nil) for null. */
  function GetValue(filters: Option<FilterSet>, name: string): (r: Option<Value>)
    ensures filters.None? ==> r == Some(Nil)
    ensures filters.Some? ==> (r.Some? <==> name in filters.value)
    ensures filters.Some? && r.Some? ==> r.value == filters.value[name]
  {
    match filters
    case None => Some(Nil)
    case Some(f) => if name in f then Some(f[name]) else None
  }

  /** `isResetDisabled`: the current filters equal the defaults, that is,
      both name the same fields and give each the same value. */
  function IsResetDisabled(s: State): (r: bool)
    ensures r <==> (forall k :: k in s.filters <==> k in s.defaults)
                   && (forall k :: k in s.filters && k in s.defaults ==> s.filters[k] == s.defaults[k])
  {
    s.filters == s.defaults
  }

  /** One call on the store. */
  datatype Op =
    | RegisterOp(name: string, defaultValue: Value)
    | UnregisterOp(name: string)
    | SetValueOp(name: string, value: Value)
    | ResetOp

  /** The transition one call makes. */
  function Step(c: Config, s: State, op: Op): (t: State)
  {
    match op
    case RegisterOp(name, d) => Register(c, s, name, d)
    case UnregisterOp(name) => Unregister(c, s, name)
    case SetValueOp(name, v) => SetValue(c, s, name, v)
    case ResetOp => Reset(c, s)
  }

  /** The calls in ops made one after the other, starting from s. */
  function Run(c: Config, s: State, ops: seq<Op>): (t: State)
    decreases |ops|
  {
    if ops == [] then s else Run(c, Step(c, s, ops[0]), ops[1..])
  }
}
