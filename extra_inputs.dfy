/** `src/utils/extraInputs.ts`: which conditional fields are shown. Fields
    whose `isExtraInput` is falsy are always shown; a shown field whose
    selected option lists `extraInputs` reveals those ids. The second loop
    reads the set it is growing, so a reveal cascades to fields later in the
    list within the same call, but never to earlier ones.

    The algorithm is modelled over an abstract field record; `FieldOfConfig`
    builds it from the `InputConfig` shape the function is written against. */
module ExtraInputs {
  import opened Js
  import opened PromptTypes
  import opened FormTypes

  /** An option: its value and the ids it reveals when selected. */
  datatype Choice = Choice(value: string, extras: Option<seq<string>>)

  /** What the function reads of a field: `id`, `isExtraInput` and the option list. */
  datatype Field = Field(id: string, isExtra: bool, choices: Option<seq<Choice>>)

  /** `input.values` of an `InputConfig`. */
  function FieldOfConfig(c: InputConfig): (f: Field)
    ensures f.id == c.id && f.isExtra == c.isExtraInput
    ensures f.choices.Some? <==> c.values.Some?
    ensures c.values.Some? ==> (|f.choices.value| == |c.values.value| &&
      forall i :: 0 <= i < |c.values.value| ==>
        f.choices.value[i] == Choice(c.values.value[i].value, c.values.value[i].extraInputs))
  {
    Field(c.id, c.isExtraInput,
      if c.values.None? then None
      else Some(seq(|c.values.value|, i requires 0 <= i < |c.values.value| =>
        Choice(c.values.value[i].value, c.values.value[i].extraInputs))))
  }

  function Elems(xs: seq<string>): set<string>
  {
    set i | 0 <= i < |xs| :: xs[i]
  }

  lemma ElemsOne(x: string)
    ensures Elems([x]) == {x}
  {
    assert [x][0] == x;
  }

  /** `choices.find((v) => v.value === value)`. */
  function FirstMatch(choices: seq<Choice>, value: string): (r: Option<Choice>)
    ensures r.Some? ==> (r.value.value == value &&
      exists k :: 0 <= k < |choices| && choices[k] == r.value && forall j :: 0 <= j < k ==> choices[j].value != value)
    ensures r.None? <==> forall j :: 0 <= j < |choices| ==> choices[j].value != value
  {
    if |choices| == 0 then None
    else if choices[0].value == value then Some(choices[0])
    else
      var r := FirstMatch(choices[1..], value);
      assert forall j :: 1 <= j < |choices| ==> choices[j] == choices[1..][j - 1];
      r
  }

  /** `selectedOption?.extraInputs`, as a set of ids. */
  function Revealed(c: Option<Choice>): set<string>
  {
    if c.Some? && c.value.extras.Some? then Elems(c.value.extras.value) else {}
  }

  /** The ids revealed by the elements of a multi-selection. */
  function ListReveals(choices: seq<Choice>, items: seq<string>): set<string>
    decreases |items|
  {
    if |items| == 0 then {}
    else ListReveals(choices, items[..|items| - 1]) + Revealed(FirstMatch(choices, items[|items| - 1]))
  }

  /** JavaScript truthiness of a form value (`!value`). */
  predicate IsTruthy(v: Option<Value>)
  {
    v.Some? &&
    match v.value
    case VStr(s) => s != ""
    case VBool(b) => b
    case VList(_) => true
  }

  /** The ids one shown field reveals given its value (lines 23-46). */
  function Reveals(f: Field, v: Option<Value>): set<string>
  {
    if f.choices.None? || !IsTruthy(v) then {}
    else match v.value
      case VStr(s) => Revealed(FirstMatch(f.choices.value, s))
      case VList(items) => ListReveals(f.choices.value, items)
      case VBool(_) => {}
  }

  /** The first loop: ids of the fields that are not conditional. */
  function Seed(fields: seq<Field>): set<string>
    decreases |fields|
  {
    if |fields| == 0 then {}
    else Seed(fields[..|fields| - 1]) + (if fields[|fields| - 1].isExtra then {} else {fields[|fields| - 1].id})
  }

  /** One iteration of the second loop. */
  function Step(visible: set<string>, f: Field, values: PromptValues): set<string>
  {
    if f.id in visible then visible + Reveals(f, Lookup(values, f.id)) else visible
  }

  /** The second loop, run over `fields` in order from the set `start`. */
  function Pass(fields: seq<Field>, values: PromptValues, start: set<string>): set<string>
    decreases |fields|
  {
    if |fields| == 0 then start
    else Step(Pass(fields[..|fields| - 1], values, start), fields[|fields| - 1], values)
  }

  /** What `getVisibleInputIds` returns. */
  function VisibleIds(fields: seq<Field>, values: PromptValues): set<string>
  {
    Pass(fields, values, Seed(fields))
  }

  /** `ids.forEach((id) => visibleIds.add(id))`. */
  method AddAll(visible: set<string>, ids: seq<string>) returns (r: set<string>)
    ensures r == visible + Elems(ids)
  {
    r := visible;
    var k := 0;
    while k < |ids|
      invariant 0 <= k <= |ids|
      invariant r == visible + Elems(ids[..k])
    {
      assert Elems(ids[..k + 1]) == Elems(ids[..k]) + {ids[k]} by {
        assert forall i :: 0 <= i < k ==> ids[..k + 1][i] == ids[..k][i];
      }
      r := r + {ids[k]};
      k := k + 1;
    }
    assert ids[..k] == ids;
  }

  /** `getVisibleInputIds`: a seeding loop, then a loop that adds the
      ids revealed by every field already in the set. */
  method GetVisibleInputIds(fields: seq<Field>, values: PromptValues) returns (visible: set<string>)
    ensures visible == VisibleIds(fields, values)
  {
    visible := {};
    var i := 0;
    while i < |fields|
      invariant 0 <= i <= |fields|
      invariant visible == Seed(fields[..i])
    {
      assert fields[..i + 1][..i] == fields[..i];
      if !fields[i].isExtra {
        visible := visible + {fields[i].id};
      }
      i := i + 1;
    }
    assert fields[..i] == fields;
    ghost var seed := visible;
    i := 0;
    while i < |fields|
      invariant 0 <= i <= |fields|
      invariant visible == Pass(fields[..i], values, seed)
    {
      assert fields[..i + 1][..i] == fields[..i];
      visible := RevealStep(visible, fields[i], values);
      i := i + 1;
    }
    assert fields[..i] == fields;
  }

  /** One iteration of the second loop of `getVisibleInputIds`. */
  method RevealStep(visible: set<string>, f: Field, values: PromptValues) returns (r: set<string>)
    ensures r == Step(visible, f, values)
  {
    r := visible;
    if f.id in visible {
      var value := Lookup(values, f.id);
      if f.choices.Some? && IsTruthy(value) {
        match value.value {
          case VStr(s) =>
            var selected := FirstMatch(f.choices.value, s);
            if selected.Some? && selected.value.extras.Some? {
              r := AddAll(r, selected.value.extras.value);
            }
          case VList(items) =>
            r := RevealList(r, f.choices.value, items);
          case VBool(_) =>
        }
      }
    }
  }

  /** The `forEach` over the elements of a multi-selection. */
  method RevealList(visible: set<string>, choices: seq<Choice>, items: seq<string>) returns (r: set<string>)
    ensures r == visible + ListReveals(choices, items)
  {
    r := visible;
    var j := 0;
    while j < |items|
      invariant 0 <= j <= |items|
      invariant r == visible + ListReveals(choices, items[..j])
    {
      assert items[..j + 1][..j] == items[..j];
      var selected := FirstMatch(choices, items[j]);
      if selected.Some? && selected.value.extras.Some? {
        r := AddAll(r, selected.value.extras.value);
      }
      j := j + 1;
    }
    assert items[..j] == items;
  }

  /** A field whose `isExtraInput` is falsy seeds the set. */
  lemma {:induction false} SeedIff(fields: seq<Field>, x: string)
    ensures x in Seed(fields) <==> exists i :: 0 <= i < |fields| && !fields[i].isExtra && fields[i].id == x
    decreases |fields|
  {
    if |fields| > 0 {
      var init := fields[..|fields| - 1];
      SeedIff(init, x);
      assert forall i :: 0 <= i < |init| ==> init[i] == fields[i];
    }
  }

  /** The set only grows: nothing is ever removed. */
  lemma {:induction false} PassGrows(fields: seq<Field>, values: PromptValues, start: set<string>)
    ensures start <= Pass(fields, values, start)
    decreases |fields|
  {
    if |fields| > 0 {
      PassGrows(fields[..|fields| - 1], values, start);
    }
  }

  /** Every non-conditional field is visible. */
  lemma NonExtraVisible(fields: seq<Field>, values: PromptValues, i: int)
    requires 0 <= i < |fields| && !fields[i].isExtra
    ensures fields[i].id in VisibleIds(fields, values)
  {
    SeedIff(fields, fields[i].id);
    PassGrows(fields, values, Seed(fields));
  }

  /** The field at `i` was in the set when the loop reached it and
      reveals `x`. */
  predicate RevealedAt(fields: seq<Field>, values: PromptValues, start: set<string>, x: string, i: int)
    requires 0 <= i < |fields|
  {
    fields[i].id in Pass(fields[..i], values, start) && x in Reveals(fields[i], Lookup(values, fields[i].id))
  }

  /** Exactly which ids end up in the set: the starting ones, and those
      revealed by a field that was already in the set when the loop reached
      it. A field that only becomes visible later in the loop reveals nothing. */
  lemma {:induction false} PassIff(fields: seq<Field>, values: PromptValues, start: set<string>, x: string)
    ensures x in Pass(fields, values, start) <==>
      x in start || exists i :: 0 <= i < |fields| && RevealedAt(fields, values, start, x, i)
    decreases |fields|
  {
    if |fields| > 0 {
      var n := |fields| - 1;
      var init := fields[..n];
      PassIff(init, values, start, x);
      forall i | 0 <= i < n
        ensures RevealedAt(fields, values, start, x, i) <==> RevealedAt(init, values, start, x, i)
      {
        assert init[..i] == fields[..i];
      }
      if x in Pass(fields, values, start) && x !in start {
        if x !in Pass(init, values, start) {
          assert RevealedAt(fields, values, start, x, n);
        }
      }
    }
  }


  /** A multi-selection reveals what the first matching option of each
      selected element reveals. */
  lemma {:induction false} ListRevealsIff(choices: seq<Choice>, items: seq<string>, x: string)
    ensures x in ListReveals(choices, items) <==>
      exists j :: 0 <= j < |items| && x in Revealed(FirstMatch(choices, items[j]))
    decreases |items|
  {
    if |items| > 0 {
      var init := items[..|items| - 1];
      ListRevealsIff(choices, init, x);
      assert forall j :: 0 <= j < |init| ==> init[j] == items[j];
    }
  }

  /** A field with no option list, or with a falsy value, reveals nothing. */
  lemma FalsyRevealsNothing(f: Field, values: PromptValues)
    requires f.choices.None? || f.id !in values || values[f.id] == VStr("") || values[f.id] == VBool(false)
    ensures Reveals(f, Lookup(values, f.id)) == {}
  {
  }

  /** A three-field chain A -> B -> C in forward order cascades fully;
      listed with B before A, B is not yet visible when the loop reaches it,
      so C stays hidden. */
  lemma CascadeOnlyForward()
    ensures
      var a := Field("a", false, Some([Choice("x", Some(["b"]))]));
      var b := Field("b", true, Some([Choice("y", Some(["c"]))]));
      var c := Field("c", true, None);
      var values := map["a" := VStr("x"), "b" := VStr("y")];
      VisibleIds([a, b, c], values) == {"a", "b", "c"} &&
      VisibleIds([b, a, c], values) == {"a", "b"}
  {
    var a := Field("a", false, Some([Choice("x", Some(["b"]))]));
    var b := Field("b", true, Some([Choice("y", Some(["c"]))]));
    var c := Field("c", true, None);
    var values := map["a" := VStr("x"), "b" := VStr("y")];
    ElemsOne("b");
    ElemsOne("c");
    var fwd := [a, b, c];
    assert fwd[..2] == [a, b] && fwd[..2][..1] == [a] && [a][..0] == [];
    assert Seed(fwd) == {"a"} by {
      assert Seed([a]) == {"a"};
      assert Seed([a, b]) == {"a"};
    }
    assert Pass([a], values, {"a"}) == {"a", "b"};
    assert Pass([a, b], values, {"a"}) == {"a", "b", "c"};
    var bwd := [b, a, c];
    assert bwd[..2] == [b, a] && bwd[..2][..1] == [b] && [b][..0] == [];
    assert Seed(bwd) == {"a"} by {
      assert Seed([b]) == {};
      assert Seed([b, a]) == {"a"};
    }
    assert Pass([b], values, {"a"}) == {"a"};
    assert Pass([b, a], values, {"a"}) == {"a", "b"};
  }

  /** A revealed id that names no field is still in the set. */
  lemma UnknownRevealKept()
    ensures VisibleIds([Field("a", false, Some([Choice("x", Some(["nobody"]))]))], map["a" := VStr("x")])
      == {"a", "nobody"}
  {
    var a := Field("a", false, Some([Choice("x", Some(["nobody"]))]));
    ElemsOne("nobody");
    assert [a][..0] == [];
    assert Seed([a]) == {"a"};
  }

  /** `inputs.filter((input) => visibleIds.has(input.id))`, generic in the
      field record. */
  function FilterById<T(!new)>(items: seq<T>, idOf: T -> string, ids: set<string>): (r: seq<T>)
    ensures |r| <= |items|
    ensures forall x :: x in r <==> x in items && idOf(x) in ids
    decreases |items|
  {
    if |items| == 0 then []
    else FilterById(items[..|items| - 1], idOf, ids) + (if idOf(items[|items| - 1]) in ids then [items[|items| - 1]] else [])
  }

  /** Filtering keeps the original order: it distributes over concatenation. */
  lemma {:induction false} FilterByIdAppend<T(!new)>(a: seq<T>, b: seq<T>, idOf: T -> string, ids: set<string>)
    ensures FilterById(a + b, idOf, ids) == FilterById(a, idOf, ids) + FilterById(b, idOf, ids)
    decreases |b|
  {
    if |b| > 0 {
      var b0 := b[..|b| - 1];
      assert (a + b)[..|a + b| - 1] == a + b0;
      FilterByIdAppend(a, b0, idOf, ids);
    } else {
      assert a + b == a;
    }
  }

  /** `getVisibleInputs` over `InputConfig`. */
  function GetVisibleInputs(inputs: seq<InputConfig>, values: PromptValues): (r: seq<InputConfig>)
    ensures forall x :: x in r <==> x in inputs && x.id in VisibleIds(ConfigFields(inputs), values)
  {
    FilterById(inputs, (c: InputConfig) => c.id, VisibleIds(ConfigFields(inputs), values))
  }

  function ConfigFields(inputs: seq<InputConfig>): (fs: seq<Field>)
    ensures |fs| == |inputs| && forall i :: 0 <= i < |inputs| ==> fs[i] == FieldOfConfig(inputs[i])
  {
    seq(|inputs|, i requires 0 <= i < |inputs| => FieldOfConfig(inputs[i]))
  }
}
