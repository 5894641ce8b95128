/** `src/config/prompts.ts`: loading prompt definitions from a directory of
    Markdown files with front matter. The file system is a map from path to
    file contents, the directory listing a sequence of names and the
    front-matter parser a parameter. */
module Prompts {
  import opened Js

  // ---------------------------------------------------------------------
  // validateInputs

  /** The `filter` of `validateInputs`: a truthy object with `id`, `label`
      and `type` keys. An array is an object too, but has none of them. */
  predicate KeepInput(v: JsValue) {
    Truthy(v) && TypeOf(v) == "object" && HasKey(v, "id") && HasKey(v, "label") && HasKey(v, "type")
  }

  function FilterInputs(xs: seq<JsValue>): (r: seq<JsValue>)
    ensures |r| <= |xs|
    ensures forall i :: 0 <= i < |r| ==> KeepInput(r[i])
    decreases |xs|
  {
    if |xs| == 0 then []
    else
      var init := FilterInputs(xs[..|xs| - 1]);
      if KeepInput(xs[|xs| - 1]) then init + [xs[|xs| - 1]] else init
  }

  /** The entries kept are exactly the input entries that pass the test. */
  lemma {:induction false} FilterInputsContents(xs: seq<JsValue>, v: JsValue)
    ensures v in FilterInputs(xs) <==> v in xs && KeepInput(v)
    decreases |xs|
  {
    if |xs| > 0 {
      var init := xs[..|xs| - 1];
      FilterInputsContents(init, v);
      assert xs == init + [xs[|xs| - 1]];
    }
  }

  /** The option record `{value, label: label || value, isDefault,
      extraInputs}`; reading a property of `null` or `undefined` throws,
      which is `None`. */
  function NormaliseOption(o: JsValue): (r: Option<JsValue>)
    ensures r.None? <==> o.Undefined? || o.Null?
    ensures r.Some? ==> r.value == Obj([("value", Get(o, "value")),
      ("label", if Truthy(Get(o, "label")) then Get(o, "label") else Get(o, "value")),
      ("isDefault", Get(o, "isDefault")), ("extraInputs", Get(o, "extraInputs"))])
  {
    if o.Undefined? || o.Null? then None
    else
      var value := Get(o, "value");
      var labelValue := Get(o, "label");
      Some(Obj([("value", value), ("label", if Truthy(labelValue) then labelValue else value),
                ("isDefault", Get(o, "isDefault")), ("extraInputs", Get(o, "extraInputs"))]))
  }

  /** A normalised option keeps only its four keys, and its label is the
      value when the label is missing or empty. */
  lemma NormalisedOptionShape(o: JsValue)
    requires NormaliseOption(o).Some?
    ensures var r := NormaliseOption(o).value;
      HasKey(r, "value") && HasKey(r, "label") && HasKey(r, "isDefault") && HasKey(r, "extraInputs") &&
      (forall k :: HasKey(r, k) ==> k in {"value", "label", "isDefault", "extraInputs"}) &&
      Get(r, "value") == Get(o, "value") &&
      Get(r, "label") == (if Truthy(Get(o, "label")) then Get(o, "label") else Get(o, "value"))
  {
    NormalisedOptionKeys(o);
    NormalisedOptionValues(o);
  }

  lemma NormalisedOptionKeys(o: JsValue)
    requires NormaliseOption(o).Some?
    ensures var r := NormaliseOption(o).value;
      HasKey(r, "value") && HasKey(r, "label") && HasKey(r, "isDefault") && HasKey(r, "extraInputs") &&
      (forall k :: HasKey(r, k) ==> k in {"value", "label", "isDefault", "extraInputs"})
  {
    var r := NormaliseOption(o).value;
    assert r.fields[0].0 == "value" && r.fields[1].0 == "label";
    assert r.fields[2].0 == "isDefault" && r.fields[3].0 == "extraInputs";
  }

  lemma NormalisedOptionValues(o: JsValue)
    requires NormaliseOption(o).Some?
    ensures var r := NormaliseOption(o).value;
      Get(r, "value") == Get(o, "value") &&
      Get(r, "label") == (if Truthy(Get(o, "label")) then Get(o, "label") else Get(o, "value"))
  {
    var r := NormaliseOption(o).value;
    assert r.fields[0].0 == "value" && r.fields[1].0 == "label";
    assert FieldIndex(r.fields, "value") == Some(0);
    assert FieldIndex(r.fields, "label") == Some(1);
  }

  /** The options array through `map`; `None` once an option throws. */
  function NormaliseOptions(os: seq<JsValue>): (r: Option<seq<JsValue>>)
    ensures r.Some? <==> forall i :: 0 <= i < |os| ==> NormaliseOption(os[i]).Some?
    ensures r.Some? ==> |r.value| == |os| && forall i :: 0 <= i < |os| ==> NormaliseOption(os[i]) == Some(r.value[i])
    decreases |os|
  {
    if |os| == 0 then Some([])
    else
      match NormaliseOption(os[0])
      case None => None
      case Some(o) =>
        match NormaliseOptions(os[1..])
        case None => None
        case Some(rest) => Some([o] + rest)
  }

  /** The `map` step of `validateInputs`: an entry with truthy `options`
      gets them normalised in place; calling `map` on anything but an array
      throws. */
  function NormaliseInput(v: JsValue): (r: Option<JsValue>)
    requires v.Obj?
  {
    var options := Get(v, "options");
    if !Truthy(options) then Some(v)
    else if !options.Arr? then None
    else
      match NormaliseOptions(options.elems)
      case None => None
      case Some(os) => Some(Obj(SetField(v.fields, "options", Arr(os))))
  }

  /** Normalisation touches only `options`: every key stays where it was,
      every other value is kept, and an entry without truthy `options` is
      returned as it is. */
  lemma NormaliseInputKeeps(v: JsValue, k: string)
    requires v.Obj? && NormaliseInput(v).Some?
    ensures var r := NormaliseInput(v).value;
      r.Obj? && (HasKey(r, k) <==> HasKey(v, k)) && (k != "options" ==> Get(r, k) == Get(v, k)) &&
      (!Truthy(Get(v, "options")) ==> r == v)
  {
    var r := NormaliseInput(v).value;
    if Truthy(Get(v, "options")) {
      if HasKey(r, k) {
        var i :| 0 <= i < |r.fields| && r.fields[i].0 == k;
        assert v.fields[i].0 == k;
      }
      if HasKey(v, k) {
        var i :| 0 <= i < |v.fields| && v.fields[i].0 == k;
        assert r.fields[i].0 == k;
      }
      if k != "options" {
        FieldIndexSame(v.fields, r.fields, k);
      }
    }
  }

  lemma {:induction false} FieldIndexSameKeys(a: seq<(string, JsValue)>, b: seq<(string, JsValue)>, k: string)
    requires |a| == |b| && forall i :: 0 <= i < |a| ==> a[i].0 == b[i].0
    ensures FieldIndex(a, k) == FieldIndex(b, k)
    decreases |a|
  {
    if |a| > 0 && a[0].0 != k {
      FieldIndexSameKeys(a[1..], b[1..], k);
    }
  }

  lemma FieldIndexSame(a: seq<(string, JsValue)>, b: seq<(string, JsValue)>, k: string)
    requires |a| == |b| && forall i :: 0 <= i < |a| ==> a[i].0 == b[i].0
    requires forall i :: 0 <= i < |a| && a[i].0 == k ==> a[i].1 == b[i].1
    ensures Get(Obj(a), k) == Get(Obj(b), k)
  {
    FieldIndexSameKeys(a, b, k);
  }

  function NormaliseAll(xs: seq<JsValue>): (r: Option<seq<JsValue>>)
    requires forall i :: 0 <= i < |xs| ==> xs[i].Obj?
    ensures r.Some? ==> |r.value| == |xs| && forall i :: 0 <= i < |xs| ==> NormaliseInput(xs[i]) == Some(r.value[i])
    ensures r.None? ==> exists i :: 0 <= i < |xs| && NormaliseInput(xs[i]).None?
    decreases |xs|
  {
    if |xs| == 0 then Some([])
    else
      match NormaliseInput(xs[0])
      case None => None
      case Some(v) =>
        match NormaliseAll(xs[1..])
        case None => None
        case Some(rest) => Some([v] + rest)
  }

  /** `validateInputs`: `[]` for anything but an array; otherwise the kept
      entries, in order, each normalised. `None` is the exception a broken
      `options` raises. */
  function ValidateInputs(inputs: JsValue): (r: Option<seq<JsValue>>)
  {
    if !inputs.Arr? then Some([])
    else NormaliseAll(FilterInputs(inputs.elems))
  }

  /** A non-array gives no fields; an array gives one normalised entry per
      kept entry, in order, each with `id`, `label` and `type`. */
  lemma ValidateInputsShape(inputs: JsValue)
    ensures !inputs.Arr? ==> ValidateInputs(inputs) == Some([])
    ensures inputs.Arr? && ValidateInputs(inputs).Some? ==>
      var kept := FilterInputs(inputs.elems);
      var r := ValidateInputs(inputs).value;
      |r| == |kept| &&
      forall i :: 0 <= i < |r| ==> (NormaliseInput(kept[i]) == Some(r[i]) &&
        HasKey(r[i], "id") && HasKey(r[i], "label") && HasKey(r[i], "type"))
  {
    if inputs.Arr? && ValidateInputs(inputs).Some? {
      var kept := FilterInputs(inputs.elems);
      var r := ValidateInputs(inputs).value;
      forall i | 0 <= i < |r|
        ensures HasKey(r[i], "id") && HasKey(r[i], "label") && HasKey(r[i], "type")
      {
        NormaliseInputKeeps(kept[i], "id");
        NormaliseInputKeeps(kept[i], "label");
        NormaliseInputKeeps(kept[i], "type");
      }
    }
  }

  /** An entry whose `options` is a string makes the whole call throw. */
  lemma StringOptionsThrow()
    ensures ValidateInputs(Arr([Obj([("id", Str("a")), ("label", Str("A")), ("type", Str("select")),
      ("options", Str("x"))])])).None?
  {
    var v := Obj([("id", Str("a")), ("label", Str("A")), ("type", Str("select")), ("options", Str("x"))]);
    assert v.fields[0].0 == "id" && v.fields[1].0 == "label" && v.fields[2].0 == "type";
    assert KeepInput(v);
    assert FilterInputs([v]) == [v] by {
      assert [v][..0] == [];
    }
    assert Get(v, "options") == Str("x");
  }

  // ---------------------------------------------------------------------
  // resolveObsidianReferences

  /** One match of `/!\[\[([^\]]+)\]\]/g`: the whole text and the name. */
  datatype Ref = Ref(full: string, name: string)

  /** The text of a reference to `name`. */
  function RefText(name: string): string
  {
    "![[" + name + "]]"
  }

  /** The end of the name of a reference starting at `i`: `![[`, one or
      more characters other than `]`, then `]]`. */
  function RefAt(s: string, i: nat): (r: Option<nat>)
    requires i <= |s|
    ensures r.Some? ==> i + 3 < r.value && r.value + 2 <= |s|
  {
    if !OccursAt(s, "![[", i) then None
    else
      match IndexOfFrom(s, "]", i + 3)
      case None => None
      case Some(j) => if j > i + 3 && j + 1 < |s| && s[j + 1] == ']' then Some(j) else None
  }

  /** A reference found at `i` opens with `![[`, closes with `]]` at its
      end, and has no `]` in its name. */
  lemma RefAtFacts(s: string, i: nat, j: nat)
    requires i <= |s| && RefAt(s, i) == Some(j)
    ensures s[i..i + 3] == "![[" && s[j] == ']' && s[j + 1] == ']'
    ensures forall k :: i + 3 <= k < j ==> s[k] != ']'
  {
    assert IndexOfFrom(s, "]", i + 3) == Some(j);
    assert s[j..j + 1] == "]";
    forall k | i + 3 <= k < j ensures s[k] != ']' {
      assert !OccursAt(s, "]", k);
      assert s[k..k + 1] == [s[k]];
    }
  }

  /** `content.matchAll(referencePattern)`, scanning from `i`. */
  function RefsFrom(s: string, i: nat): (r: seq<Ref>)
    requires i <= |s|
    decreases |s| - i
  {
    if i == |s| then []
    else
      match RefAt(s, i)
      case Some(j) => [Ref(s[i..j + 2], s[i + 3..j])] + RefsFrom(s, j + 2)
      case None => RefsFrom(s, i + 1)
  }

  function Refs(s: string): seq<Ref>
  {
    RefsFrom(s, 0)
  }

  /** A match is the text of a reference to a non-empty name without `]`. */
  predicate WellFormedRef(r: Ref) {
    r.full == RefText(r.name) && |r.name| > 0 && ']' !in r.name
  }

  lemma RefsFromMatch(s: string, i: nat, j: nat)
    requires i < |s| && RefAt(s, i) == Some(j)
    ensures RefsFrom(s, i) == [Ref(s[i..j + 2], s[i + 3..j])] + RefsFrom(s, j + 2)
  {
  }

  lemma RefsFromSkip(s: string, i: nat)
    requires i < |s| && RefAt(s, i).None?
    ensures RefsFrom(s, i) == RefsFrom(s, i + 1)
  {
  }

  predicate AllWellFormed(rs: seq<Ref>) {
    forall r :: r in rs ==> WellFormedRef(r)
  }

  /** A match in front of well-formed matches keeps them all well formed. */
  lemma WellFormedMatch(s: string, i: nat, j: nat)
    requires i < |s| && RefAt(s, i) == Some(j) && AllWellFormed(RefsFrom(s, j + 2))
    ensures AllWellFormed(RefsFrom(s, i))
  {
    RefsFromMatch(s, i, j);
    RefAtShape(s, i, j);
    var x := Ref(s[i..j + 2], s[i + 3..j]);
    var rest := RefsFrom(s, j + 2);
    assert forall r :: r in [x] + rest ==> r == x || r in rest;
  }

  /** Every match is well formed. */
  lemma {:induction false} RefsWellFormed(s: string, i: nat)
    requires i <= |s|
    ensures AllWellFormed(RefsFrom(s, i))
    decreases |s| - i
  {
    if i < |s| {
      var m := RefAt(s, i);
      if m.Some? {
        RefsWellFormed(s, m.value + 2);
        WellFormedMatch(s, i, m.value);
      } else {
        RefsFromSkip(s, i);
        RefsWellFormed(s, i + 1);
      }
    }
  }

  lemma RefAtShape(s: string, i: nat, j: nat)
    requires i <= |s| && RefAt(s, i) == Some(j)
    ensures WellFormedRef(Ref(s[i..j + 2], s[i + 3..j]))
  {
    RefAtFacts(s, i, j);
    var name := s[i + 3..j];
    assert s[i..j + 2] == s[i..i + 3] + name + s[j..j + 2];
    assert s[j..j + 2] == "]]";
    forall m | 0 <= m < |name| ensures name[m] != ']' {
      assert name[m] == s[i + 3 + m];
    }
  }

  /** `path.join(rulesDir, name + ".md")`, without path normalisation. */
  function RulePath(rulesDir: string, name: string): string
  {
    rulesDir + "/" + name + ".md"
  }

  /** Whether a reference is skipped: its file is already on the current
      chain (a cycle) or does not exist. */
  predicate Skipped(path: string, chain: set<string>, files: map<string, string>)
  {
    path in chain || path !in files
  }

  /** `resolveObsidianReferences(content, rulesDir, chain)`. Recursion adds
      the referenced file to the chain, so the files not yet on it shrink. */
  function Resolve(content: string, rulesDir: string, chain: set<string>, files: map<string, string>): string
    decreases files.Keys - chain, 1
  {
    ResolveEach(content, Refs(content), rulesDir, chain, files)
  }

  /** One iteration of the loop: a skipped reference changes nothing;
      otherwise the first occurrence of its text in the content resolved so
      far is replaced by the referenced file's trimmed contents, resolved
      with that file added to the chain. */
  function Step(resolved: string, r: Ref, rulesDir: string, chain: set<string>, files: map<string, string>): string
    decreases files.Keys - chain, 0, 0
  {
    var path := RulePath(rulesDir, r.name);
    if Skipped(path, chain, files) then resolved
    else ReplaceFirst(resolved, r.full, Resolve(Trim(files[path]), rulesDir, chain + {path}, files))
  }

  /** The `for (const match of matches)` loop. */
  function ResolveEach(resolved: string, refs: seq<Ref>, rulesDir: string, chain: set<string>,
                       files: map<string, string>): string
    decreases files.Keys - chain, 0, |refs|
  {
    if |refs| == 0 then resolved
    else ResolveEach(Step(resolved, refs[0], rulesDir, chain, files), refs[1..], rulesDir, chain, files)
  }

  /** The loop and the recursion as the source writes them. */
  method ResolveObsidianReferences(content: string, rulesDir: string, chain: set<string>,
                                   files: map<string, string>) returns (r: string)
    ensures r == Resolve(content, rulesDir, chain, files)
    decreases files.Keys - chain
  {
    var refs := Refs(content);
    r := content;
    var i := 0;
    while i < |refs|
      invariant 0 <= i <= |refs|
      invariant ResolveEach(r, refs[i..], rulesDir, chain, files) == Resolve(content, rulesDir, chain, files)
    {
      var path := RulePath(rulesDir, refs[i].name);
      assert refs[i..][0] == refs[i] && refs[i..][1..] == refs[i + 1..];
      ghost var next := Step(r, refs[i], rulesDir, chain, files);
      if path !in chain && path in files {
        var inner := ResolveObsidianReferences(Trim(files[path]), rulesDir, chain + {path}, files);
        r := ReplaceFirst(r, refs[i].full, inner);
      }
      assert r == next;
      i := i + 1;
    }
  }

  /** References that are all skipped leave the content as it is. */
  lemma {:induction false} AllSkippedUnchanged(resolved: string, refs: seq<Ref>, rulesDir: string,
                                                chain: set<string>, files: map<string, string>)
    requires forall i :: 0 <= i < |refs| ==> Skipped(RulePath(rulesDir, refs[i].name), chain, files)
    ensures ResolveEach(resolved, refs, rulesDir, chain, files) == resolved
    decreases |refs|
  {
    if |refs| > 0 {
      assert Step(resolved, refs[0], rulesDir, chain, files) == resolved;
      AllSkippedUnchanged(resolved, refs[1..], rulesDir, chain, files);
    }
  }

  /** A reference to a missing file, or to a file already on the chain,
      stays in the text verbatim; text without references is unchanged. */
  lemma UnresolvableLeftInPlace(content: string, rulesDir: string, chain: set<string>, files: map<string, string>)
    requires forall i :: 0 <= i < |Refs(content)| ==> Skipped(RulePath(rulesDir, Refs(content)[i].name), chain, files)
    ensures Resolve(content, rulesDir, chain, files) == content
  {
    AllSkippedUnchanged(content, Refs(content), rulesDir, chain, files);
  }

  /** A reference alone is one match. */
  lemma SingleRef(name: string)
    requires |name| > 0 && ']' !in name
    ensures Refs(RefText(name)) == [Ref(RefText(name), name)]
  {
    var s := RefText(name);
    var j := 3 + |name|;
    assert s[0..3] == "![[";
    assert OccursAt(s, "![[", 0);
    forall k | 3 <= k < j ensures !OccursAt(s, "]", k) {
      assert s[k] == name[k - 3];
      assert s[k..k + 1] == [s[k]];
    }
    assert s[j..j + 1] == "]";
    assert OccursAt(s, "]", j);
    assert IndexOfFrom(s, "]", 3) == Some(j);
    assert RefAt(s, 0) == Some(j);
    assert s[0..j + 2] == s && s[3..j] == name;
    assert RefsFrom(s, j + 2) == [];
  }

  /** A text that is a single reference resolves by a single step. */
  lemma SingleRefStep(name: string, rulesDir: string, chain: set<string>, files: map<string, string>)
    requires |name| > 0 && ']' !in name
    ensures Resolve(RefText(name), rulesDir, chain, files)
      == Step(RefText(name), Ref(RefText(name), name), rulesDir, chain, files)
  {
    var s := RefText(name);
    var refs := [Ref(s, name)];
    SingleRef(name);
    assert refs[1..] == [];
    assert ResolveEach(s, refs, rulesDir, chain, files)
      == ResolveEach(Step(s, refs[0], rulesDir, chain, files), [], rulesDir, chain, files);
  }

  /** Replacing a whole text by a replacement without `$`. */
  lemma ReplaceWhole(s: string, rep: string)
    requires '$' !in rep
    ensures ReplaceFirst(s, s, rep) == rep
  {
    assert OccursAt(s, s, 0);
    ReplaceFirstSplices(s, s, rep, 0);
    assert s[..0] + rep + s[|s|..] == rep;
  }

  /** A text that is one reference to an existing file off the chain
      becomes that file's trimmed, resolved contents (when they hold no `$`,
      which `replace` would expand). */
  lemma SingleRefResolved(name: string, rulesDir: string, chain: set<string>, files: map<string, string>)
    requires |name| > 0 && ']' !in name
    requires RulePath(rulesDir, name) in files && RulePath(rulesDir, name) !in chain
    requires '$' !in Resolve(Trim(files[RulePath(rulesDir, name)]), rulesDir, chain + {RulePath(rulesDir, name)}, files)
    ensures Resolve(RefText(name), rulesDir, chain, files)
      == Resolve(Trim(files[RulePath(rulesDir, name)]), rulesDir, chain + {RulePath(rulesDir, name)}, files)
  {
    var path := RulePath(rulesDir, name);
    var inner := Resolve(Trim(files[path]), rulesDir, chain + {path}, files);
    SingleRefStep(name, rulesDir, chain, files);
    ReplaceWhole(RefText(name), inner);
  }

  /** A reference's text has nothing for `trim` to remove. */
  lemma TrimRefText(name: string)
    ensures Trim(RefText(name)) == RefText(name)
  {
    var s := RefText(name);
    assert s[0] == '!' && TrimStart(s) == s;
    assert s[|s| - 1] == ']' && TrimEnd(s) == s;
  }

  /** A character other than `!`, `[` and `]` is in a reference's text only
      if it is in the name. */
  lemma RefTextAvoids(name: string, c: char)
    requires c !in name && c != '!' && c != '[' && c != ']'
    ensures c !in RefText(name)
  {
    var s := RefText(name);
    forall i | 0 <= i < |s| ensures s[i] != c {
      if 3 <= i < 3 + |name| {
        assert s[i] == name[i - 3];
      }
    }
  }

  /** A reference to a file on the chain resolves to itself. */
  lemma OnChainRefStays(name: string, rulesDir: string, chain: set<string>, files: map<string, string>)
    requires |name| > 0 && ']' !in name && RulePath(rulesDir, name) in chain
    ensures Resolve(RefText(name), rulesDir, chain, files) == RefText(name)
  {
    SingleRefStep(name, rulesDir, chain, files);
  }

  /** The resolved contents are a `replace` replacement string, so `$$` in a
      rule file comes out as a single `$`. */
  lemma DollarsInRuleCollapse()
    ensures Resolve(RefText("a"), "r", {}, map["r/a.md" := "$$"]) == "$"
  {
    var files := map["r/a.md" := "$$"];
    var s := RefText("a");
    assert RulePath("r", "a") == "r/a.md";
    DollarsTrimmed();
    DollarsRuleResolved(files);
    SingleRefExpands("a", "r", {}, files);
    DollarsExpand(s);
  }

  /** A text that is one reference to a file off the chain becomes the
      file's resolved contents, expanded as a `replace` pattern. */
  lemma SingleRefExpands(name: string, rulesDir: string, chain: set<string>, files: map<string, string>)
    requires |name| > 0 && ']' !in name
    requires RulePath(rulesDir, name) in files && RulePath(rulesDir, name) !in chain
    ensures var path := RulePath(rulesDir, name);
      Resolve(RefText(name), rulesDir, chain, files)
      == Expand(Resolve(Trim(files[path]), rulesDir, chain + {path}, files), RefText(name), "", "")
  {
    var path := RulePath(rulesDir, name);
    SingleRefStep(name, rulesDir, chain, files);
    ReplaceFirstWhole(RefText(name), Resolve(Trim(files[path]), rulesDir, chain + {path}, files));
  }


  lemma DollarsTrimmed()
    ensures Trim("$$") == "$$"
  {
  }

  /** The rule file's text holds no reference. */
  lemma DollarsRuleResolved(files: map<string, string>)
    ensures Resolve("$$", "r", {"r/a.md"}, files) == "$$"
  {
    assert Refs("$$") == [] by {
      assert !OccursAt("$$", "![[", 0) && !OccursAt("$$", "![[", 1);
    }
  }

  /** `$$` in a replacement is one `$`. */
  lemma DollarsExpand(s: string)
    ensures Expand("$$", s, "", "") == "$"
  {
    assert "$$"[2..] == "";
  }

  /** Replacing a whole text by itself gives the expanded replacement. */
  lemma ReplaceFirstWhole(s: string, rep: string)
    ensures ReplaceFirst(s, s, rep) == Expand(rep, s, "", "")
  {
    assert s[0..|s|] == s;
    ReplaceFirstAtStart(s, s, rep);
    assert s[..0] == "" && s[|s|..] == "";
  }



  // ---------------------------------------------------------------------
  // loadPromptsFromDirectory

  /** A loaded prompt: the front-matter attributes as parsed, the validated
      fields, the resolved body and the file's path. */
  datatype LoadedPrompt = LoadedPrompt(
    title: JsValue,
    formDescription: JsValue,
    execScript: JsValue,
    inputs: seq<JsValue>,
    content: string,
    filePath: string)

  /** `readdirSync(...).filter((file) => file.endsWith(".md"))`. */
  function MarkdownFiles(names: seq<string>): (r: seq<string>)
    ensures forall i :: 0 <= i < |r| ==> EndsWith(r[i], ".md")
    decreases |names|
  {
    if |names| == 0 then []
    else
      var init := MarkdownFiles(names[..|names| - 1]);
      if EndsWith(names[|names| - 1], ".md") then init + [names[|names| - 1]] else init
  }

  lemma {:induction false} MarkdownFilesContents(names: seq<string>, f: string)
    ensures f in MarkdownFiles(names) <==> f in names && EndsWith(f, ".md")
    decreases |names|
  {
    if |names| > 0 {
      var init := names[..|names| - 1];
      MarkdownFilesContents(init, f);
      assert names == init + [names[|names| - 1]];
    }
  }

  /** The loop body for one file: unreadable files, files the front-matter
      parser rejects, files lacking a truthy `title` or `inputs` and files
      whose `options` make `validateInputs` throw are skipped. */
  function LoadFile(directory: string, file: string, rulesDir: string, files: map<string, string>,
                    parse: string -> Option<(JsValue, string)>): (r: Option<LoadedPrompt>)
    ensures r.Some? ==> r.value.filePath == directory + "/" + file && r.value.filePath in files
    ensures r.Some? ==> (parse(files[r.value.filePath]).Some? && Truthy(r.value.title) &&
      r.value.title == Get(parse(files[r.value.filePath]).value.0, "title"))
  {
    var filePath := directory + "/" + file;
    if filePath !in files then None
    else
      match parse(files[filePath])
      case None => None
      case Some(parsed) =>
        var data := parsed.0;
        if !Truthy(Get(data, "title")) || !Truthy(Get(data, "inputs")) then None
        else
          match ValidateInputs(Get(data, "inputs"))
          case None => None
          case Some(inputs) =>
            Some(LoadedPrompt(Get(data, "title"), Get(data, "formDescription"), Get(data, "execScript"),
              inputs, Resolve(Trim(parsed.1), rulesDir, {}, files), filePath))
  }

  /** The loop body as a function of the file name. */
  function Loader(directory: string, rulesDir: string, files: map<string, string>,
                  parse: string -> Option<(JsValue, string)>): string -> Option<LoadedPrompt>
  {
    f => LoadFile(directory, f, rulesDir, files, parse)
  }

  /** The loaded prompts of `names`, in order, skipping the files that
      load to nothing. */
  function LoadEach(names: seq<string>, load: string -> Option<LoadedPrompt>): (r: seq<LoadedPrompt>)
    ensures |r| <= |names|
    decreases |names|
  {
    if |names| == 0 then []
    else
      var init := LoadEach(names[..|names| - 1], load);
      match load(names[|names| - 1])
      case Some(p) => init + [p]
      case None => init
  }

  /** `loadPromptsFromDirectory`, with the rules directory beside the
      prompts directory given. */
  function LoadAll(dirExists: bool, directory: string, listing: seq<string>, rulesDir: string,
                   files: map<string, string>, parse: string -> Option<(JsValue, string)>): seq<LoadedPrompt>
  {
    if !dirExists then [] else LoadEach(MarkdownFiles(listing), Loader(directory, rulesDir, files, parse))
  }

  lemma {:induction false} LoadEachContents(names: seq<string>, load: string -> Option<LoadedPrompt>, p: LoadedPrompt)
    ensures p in LoadEach(names, load) <==> exists i :: 0 <= i < |names| && load(names[i]) == Some(p)
    decreases |names|
  {
    if |names| > 0 {
      var init := names[..|names| - 1];
      LoadEachContents(init, load, p);
      assert forall i :: 0 <= i < |init| ==> init[i] == names[i];
      if exists i :: 0 <= i < |names| && load(names[i]) == Some(p) {
        var i :| 0 <= i < |names| && load(names[i]) == Some(p);
        if i < |init| {
          assert load(init[i]) == Some(p);
        }
      }
    }
  }

  /** A prompt is loaded exactly when the directory exists and it is what
      some `.md` entry of the listing loads to; a missing directory gives
      nothing. */
  lemma LoadAllContents(dirExists: bool, directory: string, listing: seq<string>, rulesDir: string,
                        files: map<string, string>, parse: string -> Option<(JsValue, string)>, p: LoadedPrompt)
    ensures p in LoadAll(dirExists, directory, listing, rulesDir, files, parse) <==>
      dirExists && exists f :: f in listing && EndsWith(f, ".md") && LoadFile(directory, f, rulesDir, files, parse) == Some(p)
  {
    if dirExists {
      var md := MarkdownFiles(listing);
      var load := Loader(directory, rulesDir, files, parse);
      LoadEachContents(md, load, p);
      if exists f :: f in listing && EndsWith(f, ".md") && LoadFile(directory, f, rulesDir, files, parse) == Some(p) {
        var f :| f in listing && EndsWith(f, ".md") && LoadFile(directory, f, rulesDir, files, parse) == Some(p);
        MarkdownFilesContents(listing, f);
        var i :| 0 <= i < |md| && md[i] == f;
        assert load(md[i]) == Some(p);
      }
      if p in LoadEach(md, load) {
        var i :| 0 <= i < |md| && load(md[i]) == Some(p);
        MarkdownFilesContents(listing, md[i]);
      }
    }
  }

  /** The loop over the filtered listing. */
  method LoadPromptsFromDirectory(dirExists: bool, directory: string, listing: seq<string>, rulesDir: string,
                                  files: map<string, string>, parse: string -> Option<(JsValue, string)>)
    returns (prompts: seq<LoadedPrompt>)
    ensures prompts == LoadAll(dirExists, directory, listing, rulesDir, files, parse)
  {
    if !dirExists {
      return [];
    }
    var names := MarkdownFiles(listing);
    ghost var load := Loader(directory, rulesDir, files, parse);
    prompts := [];
    var i := 0;
    while i < |names|
      invariant 0 <= i <= |names|
      invariant prompts == LoadEach(names[..i], load)
    {
      assert names[..i + 1][..i] == names[..i];
      var loaded := LoadFile(directory, names[i], rulesDir, files, parse);
      assert loaded == load(names[i]);
      if loaded.Some? {
        prompts := prompts + [loaded.value];
      }
      i := i + 1;
    }
    assert names[..i] == names;
  }
}
