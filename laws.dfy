/** Properties of the filter-state store that relate several calls: the reset
    law, idempotent registration, when the reset affordance is disabled, and
    which invariant the store does and does not keep. */
module Laws {
  import opened Values
  import opened Store

  /** A freshly created store has nothing to reset. */
  lemma InitResetDisabled(initial: FilterSet, location: Query)
    ensures IsResetDisabled(Init(initial, location))
  {
  }

  /** Registering the same field twice in a row, with the URL unchanged in
      between, leaves the store as one registration does. */
  lemma RegisterIdempotent(c: Config, s: State, name: string, d: Value)
    ensures Register(c, Register(c, s, name, d), name, d) == Register(c, s, name, d)
  {
  }

  /** Registering a field on a store with nothing to reset keeps reset
      disabled exactly when the seeded value is the default, so a URL value
      other than the default enables reset at once. */
  lemma RegisterResetDisabled(c: Config, s: State, name: string, d: Value)
    requires IsResetDisabled(s)
    ensures IsResetDisabled(Register(c, s, name, d)) <==> Seed(c.sync, SearchGet(s.query, name), d) == d
  {
  }

  /** Without a hook, setting a value on a store with nothing to reset keeps
      reset disabled exactly when the value is the field's default. */
  lemma SetValueResetDisabled(c: Config, s: State, name: string, v: Value)
    requires c.hook.None?
    requires IsResetDisabled(s)
    ensures IsResetDisabled(SetValue(c, s, name, v)) <==> name in s.defaults && s.defaults[name] == v
  {
  }

  /** Without a hook, reset commits the defaults and so disables itself. */
  lemma ResetDisablesReset(c: Config, s: State)
    requires c.hook.None?
    ensures IsResetDisabled(Reset(c, s))
  {
  }

  /** Unregistering keeps the field's default: reset is enabled afterwards,
      and without a hook a reset brings the field back with its default. */
  lemma UnregisterKeepsDefault(c: Config, s: State, name: string)
    requires name in s.defaults
    ensures !IsResetDisabled(Unregister(c, s, name))
    ensures c.hook.None? ==> GetValue(Some(Reset(c, Unregister(c, s, name)).filters), name) == Some(s.defaults[name])
  {
  }

  /** The calls in ops never register a field. */
  predicate NoRegister(ops: seq<Op>)
  {
    forall i :: 0 <= i < |ops| ==> !ops[i].RegisterOp?
  }

  /** Only `register` writes the defaults. */
  lemma {:induction false} RunKeepsDefaults(c: Config, s: State, ops: seq<Op>)
    requires NoRegister(ops)
    ensures Run(c, s, ops).defaults == s.defaults
    decreases |ops|
  {
    if ops != [] {
      assert NoRegister(ops[1..]) by {
        forall i | 0 <= i < |ops[1..]| ensures !ops[1..][i].RegisterOp? {
          assert ops[1..][i] == ops[i + 1];
        }
      }
      RunKeepsDefaults(c, Step(c, s, ops[0]), ops[1..]);
    }
  }

  /** The reset law: whatever values are set, unregistered or reset after the
      defaults were recorded, a reset without a hook restores those defaults. */
  lemma ResetLaw(c: Config, s: State, ops: seq<Op>)
    requires c.hook.None?
    requires NoRegister(ops)
    ensures Reset(c, Run(c, s, ops)).filters == s.defaults
    ensures IsResetDisabled(Reset(c, Run(c, s, ops)))
  {
    RunKeepsDefaults(c, s, ops);
  }

  /** The calls in ops never register the field name. */
  predicate NoRegisterOf(ops: seq<Op>, name: string)
  {
    forall i :: 0 <= i < |ops| && ops[i].RegisterOp? ==> ops[i].name != name
  }

  /** Only registering a field writes its default: calls that register other
      fields, or none, keep it. */
  lemma {:induction false} RunKeepsDefaultOf(c: Config, s: State, name: string, ops: seq<Op>)
    requires name in s.defaults
    requires NoRegisterOf(ops, name)
    ensures name in Run(c, s, ops).defaults
    ensures Run(c, s, ops).defaults[name] == s.defaults[name]
    decreases |ops|
  {
    if ops != [] {
      var t := Step(c, s, ops[0]);
      assert name in t.defaults && t.defaults[name] == s.defaults[name] by {
        assert !ops[0].RegisterOp? || ops[0].name != name;
      }
      assert NoRegisterOf(ops[1..], name) by {
        forall i | 0 <= i < |ops[1..]| && ops[1..][i].RegisterOp? ensures ops[1..][i].name != name {
          assert ops[1..][i] == ops[i + 1];
        }
      }
      RunKeepsDefaultOf(c, t, name, ops[1..]);
    }
  }

  /** A reset without a hook gives a field the default of its last
      registration, whatever other calls, registrations of other fields
      included, came in between. */
  lemma ResetRestoresRegisteredDefault(c: Config, s: State, name: string, d: Value, ops: seq<Op>)
    requires c.hook.None?
    requires NoRegisterOf(ops, name)
    ensures name in Reset(c, Run(c, Register(c, s, name, d), ops)).filters
    ensures Reset(c, Run(c, Register(c, s, name, d), ops)).filters[name] == d
  {
    RunKeepsDefaultOf(c, Register(c, s, name, d), name, ops);
  }

  /** Every field that has a value also has a recorded default. */
  ghost predicate FieldsHaveDefaults(s: State)
  {
    s.filters.Keys <= s.defaults.Keys
  }

  /** A call that only sets values of registered fields. */
  predicate SetsRegisteredField(s: State, op: Op)
  {
    op.SetValueOp? ==> op.name in s.defaults
  }

  /** Every call of ops, made in turn from s, sets only registered fields. */
  predicate SetsRegisteredFields(c: Config, s: State, ops: seq<Op>)
    decreases |ops|
  {
    ops == [] || (SetsRegisteredField(s, ops[0]) && SetsRegisteredFields(c, Step(c, s, ops[0]), ops[1..]))
  }

  /** Without a hook, one call that sets only a registered field keeps every
      field's default recorded. */
  lemma StepKeepsFieldsHaveDefaults(c: Config, s: State, op: Op)
    requires c.hook.None?
    requires FieldsHaveDefaults(s)
    requires SetsRegisteredField(s, op)
    ensures FieldsHaveDefaults(Step(c, s, op))
  {
  }

  /** Without a hook, and as long as only registered fields are set, every
      field that has a value has a recorded default. */
  lemma {:induction false} RunKeepsFieldsHaveDefaults(c: Config, s: State, ops: seq<Op>)
    requires c.hook.None?
    requires FieldsHaveDefaults(s)
    requires SetsRegisteredFields(c, s, ops)
    ensures FieldsHaveDefaults(Run(c, s, ops))
    decreases |ops|
  {
    if ops != [] {
      StepKeepsFieldsHaveDefaults(c, s, ops[0]);
      RunKeepsFieldsHaveDefaults(c, Step(c, s, ops[0]), ops[1..]);
    }
  }

  /** Setting a field that was never registered gives it a value with no
      default, so that invariant is not one the store enforces. */
  lemma SetUnregisteredFieldHasNoDefault(c: Config, s: State, name: string, v: Value)
    requires c.hook.None?
    requires name !in s.defaults
    ensures !FieldsHaveDefaults(SetValue(c, s, name, v))
  {
  }

  /** The raw setter bypasses registration: replacing the filters with a set
      that holds an unregistered name leaves that field with no default. */
  lemma SetFiltersCanDropDefaults(s: State, next: FilterSet, name: string)
    requires name in next && name !in s.defaults
    ensures !FieldsHaveDefaults(SetFilters(s, next))
  {
  }

  /** Under sync, a hook that vetoes an update keeps the filters as they were,
      yet the URL still carries the new string value. */
  lemma VetoedUpdateStillWritesUrl(c: Config, s: State, name: string, x: string)
    requires c.sync && c.hook.Some?
    requires c.hook.value(s.filters[name := Str(x)], name) == s.filters
    ensures SetValue(c, s, name, Str(x)).filters == s.filters
    ensures name in SetValue(c, s, name, Str(x)).query
    ensures SetValue(c, s, name, Str(x)).query[name] == x
  {
  }

  /** A list filter under sync, registered while the URL reads `tags=a,b,c`. */
  lemma TagsFieldScenario(c: Config, s: State)
    requires c.sync
    requires "tags" in s.query && s.query["tags"] == "a,b,c"
    ensures GetValue(Some(Register(c, s, "tags", List([])).filters), "tags") == Some(List(["a", "b", "c"]))
  {
    var parts := ["a", "b", "c"];
    assert Join(parts) == "a,b,c";
    assert forall i :: 0 <= i < |parts| ==> ',' !in parts[i];
    SplitJoin(parts);
  }
}
