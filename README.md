# qif filter-state store, modelled in Dafny

`FiltersProvider` (packages/qif/src/FiltersProvider.tsx) lets UI components
register named filter fields, keeps their values, mirrors them into the URL's
query parameters when `syncSearchParams` is on, and resets them to the
defaults recorded at registration. This project models that store without the
UI framework around it. The store has three pieces of state:

- **filters**: the current name-to-value map (the `filters` prop, written through `setFilters`);
- **defaults**: the name-to-default map held in `defaultValueRef`, which starts as the initial filters;
- **query**: the URL search parameters, read as a flat name-to-string map.

It is split into four modules:

- `Values` (values.dfy): a filter value is `Str`, `List` or `Nil`. The module defines JavaScript's `split(",")` and `join(",")`, and `Decode`, the comma rule that `register` applies to a URL value. It also proves the two round trips between split and join.
- `Store` (store.dfy): each operation as a pure transition on `State(filters, defaults, query)`, parameterised by a `Config`. `Config` holds the props (`syncSearchParams`, the optional `onBeforStateChange` hook) and the two steps of the `qs` library whose behaviour is left open. The module also defines `getValue` and `isResetDisabled`, and `Run` for a sequence of calls.
- `Laws` (laws.dfy): properties that relate several calls. These are the reset law, idempotent registration, when reset is disabled, and which invariant holds.
- `Provider` (provider.dfy): the class `FiltersProvider`. Its three map fields are updated in place by `Register`, `Unregister`, `SetValue`, `Reset` and `SetFilters`. Each method is proved to make exactly the `Store` transition.

Behaviour of the code that the model keeps, and that a user of the library
might not expect:

- `getValue` returns null for a nullish filters cell or for a field holding null. An empty object `{}` is truthy, so a missing field answers undefined (`None`), not null.
- A field with a value need not have a recorded default: the store does not enforce it. It is guaranteed while no hook is set and `setValue` is called only on registered names (`Laws.RunKeepsFieldsHaveDefaults`). One `setValue` on an unregistered name breaks it (`Laws.SetUnregisteredFieldHasNoDefault`), and so can the raw `setFilters` setter (`Laws.SetFiltersCanDropDefaults`).
- `unregister` leaves the field's default in place. Reset is therefore enabled right after an unregister, and a reset brings the field back (`Laws.UnregisterKeepsDefault`).
- `register` seeds the value from the URL, so reset is disabled right after registration only when that value equals the default (`Laws.RegisterResetDisabled`).
- Reset can stay enabled when every field holds its default. `isResetDisabled` compares the two maps as JSON strings, so key order counts, and unregistering and re-registering a field moves it to the end of the filters but not of the defaults. The model compares the maps without order (see `Store.IsResetDisabled` under "## Left out").
- `setValue` writes the raw value to the URL, whatever the hook commits, so a vetoed update still changes the URL (`Laws.VetoedUpdateStillWritesUrl`).
- `setValue` hands a list to `qs.stringify`, which uses its own array layout rather than a comma join. The model leaves that layout open (`Config.layout`) and does not claim that a list written by `setValue` is read back by `register`.

## Model

`Provider.SearchFieldWalkthrough` is an example client: it drives one text field through the object and checks each answer with assertions, and has no contract of its own.

| member | source | states |
|---|---|---|
| Values.Split | packages/qif/src/FiltersProvider.tsx:35 | `split(",")` yields one more piece than the string has commas, and no piece contains a comma |
| Values.JoinSplit | packages/qif/src/FiltersProvider.tsx:34-35 | joining the pieces of a split with "," gives back the URL value exactly |
| Values.SplitJoin | packages/qif/src/FiltersProvider.tsx:34-35 | splitting a comma-join of at least one comma-free part gives back the parts |
| Values.Decode | packages/qif/src/FiltersProvider.tsx:34-36 | a URL value without a comma stays a string; one with a comma becomes a list of at least two comma-free items that join back to it |
| Values.DecodeJoin | packages/qif/src/FiltersProvider.tsx:34-36 | a comma-join of two or more comma-free parts decodes to that list, but a single part decodes to a plain string (one-element lists are lost) |
| Store.Init | packages/qif/src/FiltersProvider.tsx:22 | a new store holds the initial filters and the current URL parameters, and its defaults are its filters |
| Store.Commit | packages/qif/src/FiltersProvider.tsx:73-75 | the committed filters are the candidate when no hook is given, and the hook's result for the candidate and the name or reason otherwise |
| Store.SetFilters | packages/qif/src/FiltersProvider.tsx:20 | the raw setter replaces the filters and keeps the defaults and the URL |
| Store.IsResetDisabled | packages/qif/src/FiltersProvider.tsx:116 | reset is disabled exactly when the filters and the defaults name the same fields and give each the same value |
| Store.Assign | packages/qif/src/FiltersProvider.tsx:39 | the spread `{ ...m, [k]: v }` maps k to v and keeps every other entry |
| Store.Omit | packages/qif/src/FiltersProvider.tsx:52-54 | the rest-destructuring drops k and keeps every other entry |
| Store.SearchGet | packages/qif/src/FiltersProvider.tsx:27-29 | reading a URL parameter gives its value when present and null (None) otherwise |
| Store.Seed | packages/qif/src/FiltersProvider.tsx:31-37 | the seeded value is the URL value split on commas when sync is on and the value has a comma; the URL value itself when it has none; the default when sync is off or the parameter is absent |
| Store.QueryAfterSet | packages/qif/src/FiltersProvider.tsx:80-93 | under sync, a null value leaves the name absent, a string value is carried under the name, and every other parameter of the library-reparsed query is kept; a list is written in the library's layout |
| Store.Register | packages/qif/src/FiltersProvider.tsx:25-47 | the field gets the seeded value and the default is recorded; every other field and default is unchanged; the URL is never written |
| Store.Unregister | packages/qif/src/FiltersProvider.tsx:49-68 | the field leaves the filters and every other field is kept; defaults are untouched; under sync only that parameter is deleted from the URL |
| Store.SetValue | packages/qif/src/FiltersProvider.tsx:70-97 | without a hook the filters become the previous ones with the field set; with a hook, whatever the hook returns for that candidate and name; defaults are untouched; under sync the URL is written as in QueryAfterSet, otherwise it is untouched |
| Store.Reset | packages/qif/src/FiltersProvider.tsx:104-113 | the filters become the defaults, or the hook's result for the defaults and "clear"; defaults are untouched; under sync the URL becomes empty |
| Store.GetValue | packages/qif/src/FiltersProvider.tsx:99-102 | a nullish filters cell gives null; otherwise the field's value when the name is in the filters, undefined when not |
| Laws.InitResetDisabled | packages/qif/src/FiltersProvider.tsx:22 | on creation the defaults are the initial filters, so reset is disabled |
| Laws.RegisterIdempotent | packages/qif/src/FiltersProvider.tsx:39-44 | registering the same name and default twice with the URL unchanged gives the same state as once |
| Laws.RegisterResetDisabled | packages/qif/src/FiltersProvider.tsx:115-118 | after a registration on a store with nothing to reset, reset stays disabled exactly when the seeded value equals the default |
| Laws.SetValueResetDisabled | packages/qif/src/FiltersProvider.tsx:72-76 | without a hook, from a store with nothing to reset, a setValue keeps reset disabled exactly when the value equals the field's default |
| Laws.ResetDisablesReset | packages/qif/src/FiltersProvider.tsx:105-108 | without a hook, reset leaves the store with nothing to reset |
| Laws.UnregisterKeepsDefault | packages/qif/src/FiltersProvider.tsx:51-55 | after unregistering a registered field, reset is enabled; without a hook, a reset brings the field back with its default |
| Laws.RunKeepsDefaults | packages/qif/src/FiltersProvider.tsx:41-44 | any sequence of calls without register leaves the defaults unchanged |
| Laws.ResetLaw | packages/qif/src/FiltersProvider.tsx:104-109 | after any sequence of setValue, unregister and reset calls, a reset without a hook restores the recorded defaults and disables reset |
| Laws.RunKeepsDefaultOf | packages/qif/src/FiltersProvider.tsx:41-44 | a sequence of calls that never registers a given field leaves that field's default unchanged |
| Laws.ResetRestoresRegisteredDefault | packages/qif/src/FiltersProvider.tsx:41-44 | without a hook, a reset gives a field the default of its last registration, whatever calls came in between that do not register that same field |
| Laws.StepKeepsFieldsHaveDefaults | packages/qif/src/FiltersProvider.tsx:39-55 | without a hook, one call that sets only a registered field keeps every valued field's default recorded |
| Laws.RunKeepsFieldsHaveDefaults | packages/qif/src/FiltersProvider.tsx:39-55 | without a hook, a sequence of calls that set only registered fields keeps every valued field's default recorded |
| Laws.SetUnregisteredFieldHasNoDefault | packages/qif/src/FiltersProvider.tsx:72-76 | setting a name that was never registered leaves a field with no default |
| Laws.SetFiltersCanDropDefaults | packages/qif/src/FiltersProvider.tsx:20 | replacing the filters through the raw setter with a set holding an unregistered name leaves a field with no default |
| Laws.VetoedUpdateStillWritesUrl | packages/qif/src/FiltersProvider.tsx:72-93 | under sync, a hook that returns the previous filters keeps them, while the URL still carries the new string value |
| Laws.TagsFieldScenario | packages/qif/src/FiltersProvider.tsx:27-37 | registering `tags` under sync while the URL reads `tags=a,b,c` makes its value the list a, b, c |
| Provider.FiltersProvider.constructor | packages/qif/src/FiltersProvider.tsx:18-23 | the object starts with the initial filters as both filters and defaults and with the current URL parameters |
| Provider.FiltersProvider.Register | packages/qif/src/FiltersProvider.tsx:25-47 | updating the fields in place makes exactly the Store.Register transition |
| Provider.FiltersProvider.Unregister | packages/qif/src/FiltersProvider.tsx:49-68 | updating the fields in place makes exactly the Store.Unregister transition |
| Provider.FiltersProvider.SetValue | packages/qif/src/FiltersProvider.tsx:70-97 | updating the fields in place makes exactly the Store.SetValue transition |
| Provider.FiltersProvider.Reset | packages/qif/src/FiltersProvider.tsx:104-113 | updating the fields in place makes exactly the Store.Reset transition |
| Provider.FiltersProvider.SetFilters | packages/qif/src/FiltersProvider.tsx:20 | the raw setter replaces the filters and changes nothing else |
| Provider.FiltersProvider.GetValue | packages/qif/src/FiltersProvider.tsx:99-102 | returns the field's value when the name is in the filters and undefined otherwise |
| Provider.FiltersProvider.IsResetDisabled | packages/qif/src/FiltersProvider.tsx:115-118 | true exactly when the filters equal the defaults |

## Left out

- The React machinery is not modelled: context creation, the provider component and its rendering, `useCallback`/`useMemo` memoisation, and batching of updater functions. Calls are applied one after another, each to the state the previous one left.
- The props are fixed for the object's lifetime. Stale closures are therefore not modelled; for example, `setValue`'s dependency list omits `onBeforStateChange`.
- `useFilters` throws outside a provider (packages/qif/src/FiltersProvider.tsx:142-148). There is no context in the model, so this check has nothing to guard.
- `window.location`, `URLSearchParams` and react-router's `setSearchParams` are foreign calls. The URL is a flat `map<string, string>`. Repeated keys, percent-encoding and navigation history are not modelled.
- One query map for both URL sides: `register` reads `window.location.search` (line 27), while `unregister`, `setValue` and `reset` go through react-router's search params (lines 58, 80, 111). The model keeps one `query` map for both, which assumes a browser-history router. Under a hash or memory router the two differ, and `register` would not see parameters the other calls wrote.
- Store.QueryAfterSet: the `qs.parse(qs.stringify(prev))` round trip is the opaque function `Config.reparse`. The model does not claim that `setValue` keeps the other URL parameters.
- Store.QueryAfterSet: for a list value, the contract says only that the URL carries the parameters in `qs.stringify`'s array layout (the opaque `Config.layout`). It makes no claim that a list written by `setValue` is read back by `register`, because that depends on the library's array format.
- Store.Commit: the `onBeforStateChange` hook is taken to be a pure function that returns a filter set; beyond that the model assumes nothing about what it returns. Three things it could do in JavaScript are not modelled: changing its argument in place (at line 107 that argument is `defaultValueRef.current` itself, so the defaults would change); the sharing of one object by filters and defaults after a reset without a hook (line 108), through which a later in-place change to one would show in the other; and returning null or undefined. As in the code, the hook cannot tell `reset`'s "clear" reason (line 107) from a field named "clear" (line 74): both reach it as bare strings.
- Store.IsResetDisabled: the `JSON.stringify` comparison of line 116 is modelled as map equality, which ignores key order; every law about when reset is disabled rests on this. The two differ after `unregister(a)` followed by `register(a, d)` with no URL value on a store that registered `a` and then `b`. The spread at line 39 puts `a` last in the filters, which become `{b, a}`, while the spread at lines 41-44 leaves it first in the defaults, `{a, b}`. The code then enables reset although every field holds its default, where the model says reset is disabled. A value that is undefined, which `JSON.stringify` drops, has no counterpart in the model.
- Provider.FiltersProvider.IsResetDisabled: `JSON.stringify` equality is modelled as map equality. `JSON.stringify` is sensitive to key order and drops undefined-valued keys, so the two can differ.
- Values.Value: only strings, lists of strings and null are modelled. Numbers, booleans and objects are left out, and so is the difference between null and undefined inside a value.
- Provider.FiltersProvider.GetValue: the object's filters are always a map, so its nullish branch cannot arise there. Store.GetValue models that branch.
- apps/qif-dev/src/App.tsx is a UI demo with no logic of its own and is not part of this model.
