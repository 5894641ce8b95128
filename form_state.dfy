/** Form-state logic shared by the two form components
    (src/components/PromptForm.tsx, src/components/DynamicForm.tsx) and the
    deeplink merge (src/utils/deeplinkValidator.ts): default initialisation,
    the required-field check and the field-change update. Both components
    write the same code against their own field record; here it is written
    once against `Defaults`, and each component supplies an adapter. */
module FormState {
  import opened Js
  import opened PromptTypes
  import Writes

  /** What default initialisation reads of a field: its id, its `default`,
      its options as (value, isDefault) pairs when it has an option list, and
      whether its type collects every default option. */
  datatype Defaults = Defaults(
    id: string,
    default: Option<Value>,
    options: Option<seq<(string, bool)>>,
    multi: bool)

  /** `k` is the first option flagged `isDefault`. */
  predicate IsFirstDefault(opts: seq<(string, bool)>, k: int)
  {
    0 <= k < |opts| && opts[k].1 && forall j :: 0 <= j < k ==> !opts[j].1
  }

  /** `options.filter((opt) => opt.isDefault).map((opt) => opt.value)`. */
  function DefaultOptionValues(opts: seq<(string, bool)>): (r: seq<string>)
    ensures |r| <= |opts|
    ensures |r| == 0 <==> forall i :: 0 <= i < |opts| ==> !opts[i].1
    ensures |r| > 0 ==> exists k :: IsFirstDefault(opts, k) && opts[k].0 == r[0]
    ensures forall x :: x in r <==> exists i :: 0 <= i < |opts| && opts[i].1 && opts[i].0 == x
    decreases |opts|
  {
    if |opts| == 0 then []
    else
      var rest := DefaultOptionValues(opts[1..]);
      assert forall i :: 1 <= i < |opts| ==> opts[i] == opts[1..][i - 1];
      if opts[0].1 then [opts[0].0] + rest else rest
  }

  /** The initial value of one field, or `None` when it gets no key. */
  function DefaultOf(d: Defaults): (r: Option<Value>)
  {
    if d.default.Some? then d.default
    else if d.options.Some? && |DefaultOptionValues(d.options.value)| > 0 then
      var vs := DefaultOptionValues(d.options.value);
      if d.multi then Some(VList(vs)) else Some(VStr(vs[0]))
    else None
  }

  /** The precedence of `DefaultOf`: the explicit default wins; otherwise a
      collecting field gets every default option value in order, any other
      field the value of the first default option; a field with neither
      gets nothing. */
  lemma DefaultPrecedence(d: Defaults)
    ensures d.default.Some? ==> DefaultOf(d) == d.default
    ensures d.default.None? && d.options.Some? && d.multi ==>
      (DefaultOf(d).Some? <==> exists i :: 0 <= i < |d.options.value| && d.options.value[i].1)
    ensures d.default.None? && d.options.Some? && d.multi && DefaultOf(d).Some? ==>
      DefaultOf(d) == Some(VList(DefaultOptionValues(d.options.value)))
    ensures d.default.None? && d.options.Some? && !d.multi && DefaultOf(d).Some? ==>
      exists k :: IsFirstDefault(d.options.value, k) && DefaultOf(d) == Some(VStr(d.options.value[k].0))
    ensures d.default.None? && d.options.None? ==> DefaultOf(d).None?
  {
  }

  /** The assignments default initialisation performs, one per field. */
  function InitSteps(ds: seq<Defaults>): (ws: seq<(string, Option<Value>)>)
    ensures |ws| == |ds| && forall i :: 0 <= i < |ds| ==> ws[i] == (ds[i].id, DefaultOf(ds[i]))
  {
    seq(|ds|, i requires 0 <= i < |ds| => (ds[i].id, DefaultOf(ds[i])))
  }

  /** The `forEach` that fills `initialValues`. */
  method InitialValues(ds: seq<Defaults>) returns (values: PromptValues)
    ensures values == Writes.Apply(map[], InitSteps(ds))
  {
    values := map[];
    var i := 0;
    while i < |ds|
      invariant 0 <= i <= |ds|
      invariant values == Writes.Apply(map[], InitSteps(ds[..i]))
    {
      assert InitSteps(ds[..i + 1])[..i] == InitSteps(ds[..i]);
      var d := DefaultOf(ds[i]);
      if d.Some? {
        values := values[ds[i].id := d.value];
      }
      i := i + 1;
    }
    assert ds[..i] == ds;
  }

  /** Field `i` is the last field with id `k` that has a default. */
  predicate IsLastDefault(ds: seq<Defaults>, k: string, i: int)
  {
    0 <= i < |ds| && ds[i].id == k && DefaultOf(ds[i]).Some? &&
    forall j :: i < j < |ds| ==> ds[j].id != k || DefaultOf(ds[j]).None?
  }

  /** A key of the initial values belongs to a field with a default, and
      holds the default of the last such field with that id. */
  lemma InitialValuesAt(ds: seq<Defaults>, k: string)
    ensures k in Writes.Apply(map[], InitSteps(ds)) <==>
      exists i :: 0 <= i < |ds| && ds[i].id == k && DefaultOf(ds[i]).Some?
    ensures forall i :: IsLastDefault(ds, k, i) ==>
      Writes.Apply(map[], InitSteps(ds))[k] == DefaultOf(ds[i]).value
  {
    var ws := InitSteps(ds);
    Writes.ApplyKeys(map[], ws, k);
    assert forall i :: 0 <= i < |ds| ==> (Writes.Assigns(ws, k, i) <==> ds[i].id == k && DefaultOf(ds[i]).Some?);
    forall i | IsLastDefault(ds, k, i)
      ensures Writes.Apply(map[], ws)[k] == DefaultOf(ds[i]).value
    {
      assert Writes.IsLastWrite(ws, k, i);
      Writes.ApplyLast(map[], ws, k, i);
    }
  }

  /** The required-field test: `undefined`, `""` or an empty array. `false`
      is a value. */
  predicate IsBlank(v: Option<Value>)
  {
    v.None? || v == Some(VStr("")) || v == Some(VList([]))
  }

  const RequiredMessage: string := "此项为必填项"

  /** The (id, required) pair of every field, in order; `flag` reads the
      pair off the form's own field record. */
  function RequiredFlags<T>(inputs: seq<T>, flag: T -> (string, bool)): (r: seq<(string, bool)>)
    ensures |r| == |inputs| && forall i :: 0 <= i < |inputs| ==> r[i] == flag(inputs[i])
  {
    seq(|inputs|, i requires 0 <= i < |inputs| => flag(inputs[i]))
  }

  /** The ids of the listed (id, required) fields that are required and blank. */
  function BlankRequired(fields: seq<(string, bool)>, values: PromptValues): set<string>
    decreases |fields|
  {
    if |fields| == 0 then {}
    else
      var f := fields[|fields| - 1];
      BlankRequired(fields[..|fields| - 1], values) + (if f.1 && IsBlank(Lookup(values, f.0)) then {f.0} else {})
  }

  lemma {:induction false} BlankRequiredIff(fields: seq<(string, bool)>, values: PromptValues, x: string)
    ensures x in BlankRequired(fields, values) <==>
      exists i :: 0 <= i < |fields| && fields[i].0 == x && fields[i].1 && IsBlank(Lookup(values, x))
    decreases |fields|
  {
    if |fields| > 0 {
      var init := fields[..|fields| - 1];
      BlankRequiredIff(init, values, x);
      assert forall i :: 0 <= i < |init| ==> init[i] == fields[i];
    }
  }

  /** The error map with `RequiredMessage` under each of `ids`. */
  function MessagesFor(ids: set<string>): (r: map<string, string>)
    ensures r.Keys == ids && forall k :: k in r ==> r[k] == RequiredMessage
  {
    map k | k in ids :: RequiredMessage
  }

  /** The body of `validateForm`: a `forEach` over the visible fields that
      fills `newErrors`, and whether it stayed empty. */
  method RequiredErrors(fields: seq<(string, bool)>, values: PromptValues)
    returns (errors: map<string, string>, ok: bool)
    ensures errors == MessagesFor(BlankRequired(fields, values))
    ensures ok <==> forall i :: 0 <= i < |fields| && fields[i].1 ==> !IsBlank(Lookup(values, fields[i].0))
  {
    errors := map[];
    var i := 0;
    while i < |fields|
      invariant 0 <= i <= |fields|
      invariant errors == MessagesFor(BlankRequired(fields[..i], values))
    {
      assert fields[..i + 1][..i] == fields[..i];
      if fields[i].1 && IsBlank(Lookup(values, fields[i].0)) {
        errors := errors[fields[i].0 := RequiredMessage];
        assert errors == MessagesFor(BlankRequired(fields[..i], values) + {fields[i].0});
      }
      i := i + 1;
    }
    assert fields[..i] == fields;
    ok := |errors| == 0;
    NoBlankRequired(fields, values);
  }

  /** No error is recorded iff every required field has a value. */
  lemma NoBlankRequired(fields: seq<(string, bool)>, values: PromptValues)
    ensures BlankRequired(fields, values) == {} <==>
      forall i :: 0 <= i < |fields| && fields[i].1 ==> !IsBlank(Lookup(values, fields[i].0))
  {
    if BlankRequired(fields, values) != {} {
      var x :| x in BlankRequired(fields, values);
      BlankRequiredIff(fields, values, x);
    } else {
      forall i | 0 <= i < |fields| && fields[i].1 ensures !IsBlank(Lookup(values, fields[i].0)) {
        BlankRequiredIff(fields, values, fields[i].0);
      }
    }
  }

  /** `handleFieldChange`: the new value state and error state. The error is
      deleted only when one is recorded and truthy. */
  function FieldChange(values: PromptValues, errors: map<string, string>, id: string, v: Value)
    : (r: (PromptValues, map<string, string>))
  {
    (values[id := v], if id in errors && errors[id] != "" then errors - {id} else errors)
  }

  /** A change sets only its own field, and clears only its own error. */
  lemma FieldChangeLocal(values: PromptValues, errors: map<string, string>, id: string, v: Value)
    ensures var (vs, es) := FieldChange(values, errors, id, v);
      vs.Keys == values.Keys + {id} && vs[id] == v &&
      (forall k :: k in values && k != id ==> vs[k] == values[k]) &&
      (id in es ==> es[id] == "") &&
      (forall k :: k != id ==> (k in es <==> k in errors) && (k in es ==> es[k] == errors[k]))
  {
  }
}
