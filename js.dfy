/** JavaScript runtime semantics the extension relies on: dynamic values,
    truthiness, `typeof`, `String(...)`, `Array.prototype.join`,
    `String.prototype.trim`, and `String.prototype.replace` with a literal
    pattern and a string replacement (whose `$`-patterns are expanded). */
module Js {

  datatype Option<T> = None | Some(value: T)

  /** A dynamic JavaScript value as it arrives from JSON, YAML or LocalStorage.
      Numbers are modelled as integers; object fields keep enumeration order. */
  datatype JsValue =
    | Undefined
    | Null
    | Bool(b: bool)
    | Num(n: int)
    | Str(s: string)
    | Arr(elems: seq<JsValue>)
    | Obj(fields: seq<(string, JsValue)>)

  /** JavaScript truthiness (`if (v)`). */
  predicate Truthy(v: JsValue) {
    match v
    case Undefined => false
    case Null => false
    case Bool(b) => b
    case Num(n) => n != 0
    case Str(s) => s != ""
    case Arr(_) => true
    case Obj(_) => true
  }

  /** The `typeof` operator. */
  function TypeOf(v: JsValue): (r: string)
    ensures r in {"undefined", "object", "boolean", "number", "string"}
    ensures r == "object" <==> (v.Null? || v.Arr? || v.Obj?)
  {
    match v
    case Undefined => "undefined"
    case Null => "object"
    case Bool(_) => "boolean"
    case Num(_) => "number"
    case Str(_) => "string"
    case Arr(_) => "object"
    case Obj(_) => "object"
  }

  function DigitChar(d: nat): char
    requires d < 10
  {
    "0123456789"[d]
  }

  function NatToString(n: nat): (r: string)
    ensures |r| > 0
    ensures forall i :: 0 <= i < |r| ==> '0' <= r[i] <= '9'
  {
    if n < 10 then [DigitChar(n)] else NatToString(n / 10) + [DigitChar(n % 10)]
  }

  /** `String(n)` for an integral number. */
  function IntToString(n: int): (r: string)
    ensures |r| > 0
  {
    if n < 0 then "-" + NatToString(-n) else NatToString(n)
  }

  function BoolToString(b: bool): (r: string)
    ensures r == (if b then "true" else "false")
  {
    if b then "true" else "false"
  }

  /** `a.join(sep)` over strings. */
  function Join(xs: seq<string>, sep: string): string
  {
    if |xs| == 0 then ""
    else if |xs| == 1 then xs[0]
    else xs[0] + sep + Join(xs[1..], sep)
  }

  lemma {:induction false} JoinAppend(xs: seq<string>, x: string, sep: string)
    ensures Join(xs + [x], sep) == if |xs| == 0 then x else Join(xs, sep) + sep + x
  {
    if |xs| > 1 {
      assert (xs + [x])[1..] == xs[1..] + [x];
      JoinAppend(xs[1..], x, sep);
    } else if |xs| == 1 {
      assert (xs + [x])[1..] == [x];
    }
  }

  /** `String(v)`: plain objects print as "[object Object]"; arrays join their
      elements with "," printing null and undefined as "". */
  function ToJsString(v: JsValue): string
    decreases v
  {
    match v
    case Undefined => "undefined"
    case Null => "null"
    case Bool(b) => BoolToString(b)
    case Num(n) => IntToString(n)
    case Str(s) => s
    case Arr(elems) => Join(ElemStrings(v, elems), ",")
    case Obj(_) => "[object Object]"
  }

  function ElemStrings(parent: JsValue, elems: seq<JsValue>): (r: seq<string>)
    requires parent.Arr? && elems == parent.elems
    ensures |r| == |elems|
    decreases parent, 0
  {
    seq(|elems|, i requires 0 <= i < |elems| =>
      if elems[i].Undefined? || elems[i].Null? then "" else ToJsString(elems[i]))
  }

  /** The characters `String.prototype.trim` removes (WhiteSpace and LineTerminator). */
  predicate IsJsSpace(c: char) {
    c == ' ' || c == '\t' || c == '\n' || c == '\r' || c == '\U{000B}' || c == '\U{000C}'
    || c == '\U{00A0}' || c == '\U{1680}' || ('\U{2000}' <= c <= '\U{200A}')
    || c == '\U{2028}' || c == '\U{2029}' || c == '\U{202F}' || c == '\U{205F}'
    || c == '\U{3000}' || c == '\U{FEFF}'
  }

  function TrimStart(s: string): (r: string)
    ensures |r| <= |s| && r == s[|s| - |r|..]
    ensures r == "" || !IsJsSpace(r[0])
  {
    if |s| > 0 && IsJsSpace(s[0]) then TrimStart(s[1..]) else s
  }

  function TrimEnd(s: string): (r: string)
    ensures |r| <= |s| && r == s[..|r|]
    ensures r == "" || !IsJsSpace(r[|r| - 1])
  {
    if |s| > 0 && IsJsSpace(s[|s| - 1]) then TrimEnd(s[..|s| - 1]) else s
  }

  /** `s.trim()`. */
  function Trim(s: string): (r: string)
  {
    TrimEnd(TrimStart(s))
  }

  lemma TrimShape(s: string)
    ensures |Trim(s)| <= |s|
    ensures Trim(s) == "" || (!IsJsSpace(Trim(s)[0]) && !IsJsSpace(Trim(s)[|Trim(s)| - 1]))
    ensures exists i, j :: 0 <= i <= j <= |s| && Trim(s) == s[i..j]
  {
    var i := |s| - |TrimStart(s)|;
    TrimIsSlice(s);
    TrimEnds(s);
    assert 0 <= i <= i + |Trim(s)| <= |s| && Trim(s) == s[i..i + |Trim(s)|];
  }

  /** The trimmed text starts where the leading spaces end. */
  lemma TrimIsSlice(s: string)
    ensures var i := |s| - |TrimStart(s)|;
      i + |Trim(s)| <= |s| && Trim(s) == s[i..i + |Trim(s)|]
  {
    var t := TrimStart(s);
    var r := TrimEnd(t);
    var i := |s| - |t|;
    SliceOfSuffix(s, i, |r|);
    assert t == s[i..];
    assert r == t[..|r|];
  }

  lemma SliceOfSuffix(s: string, i: nat, n: nat)
    requires i + n <= |s|
    ensures s[i..][..n] == s[i..i + n]
  {
  }

  /** Neither end of the trimmed text is a space. */
  lemma TrimEnds(s: string)
    ensures |Trim(s)| == 0 || (!IsJsSpace(Trim(s)[0]) && !IsJsSpace(Trim(s)[|Trim(s)| - 1]))
  {
    var t := TrimStart(s);
    var r := TrimEnd(t);
    if |r| > 0 {
      assert r == t[..|r|];
      assert r[0] == t[0];
    }
  }


  /** `s && s.trim()` taken as a condition: the string has a non-space character. */
  predicate HasText(s: string) {
    Trim(s) != ""
  }

  lemma {:induction false} TrimStartEmptyIff(s: string)
    ensures TrimStart(s) == "" <==> forall i :: 0 <= i < |s| ==> IsJsSpace(s[i])
  {
    if |s| > 0 && IsJsSpace(s[0]) {
      TrimStartEmptyIff(s[1..]);
      assert forall i :: 1 <= i < |s| ==> s[i] == s[1..][i - 1];
    }
  }

  /** A string is blank for `s.trim()` exactly when all of its characters are spaces. */
  lemma HasTextIff(s: string)
    ensures HasText(s) <==> exists i :: 0 <= i < |s| && !IsJsSpace(s[i])
  {
    TrimStartEmptyIff(s);
    var t := TrimStart(s);
    if t != "" {
      assert TrimEnd(t) != "" by {
        if TrimEnd(t) == "" { assert !IsJsSpace(t[0]); TrimEndKeepsFirst(t); }
      }
    }
  }

  lemma {:induction false} TrimEndKeepsFirst(t: string)
    requires t != "" && !IsJsSpace(t[0])
    ensures TrimEnd(t) != ""
  {
    if |t| > 1 && IsJsSpace(t[|t| - 1]) {
      TrimEndKeepsFirst(t[..|t| - 1]);
    }
  }

  predicate StartsWith(s: string, p: string) {
    |p| <= |s| && s[..|p|] == p
  }

  predicate EndsWith(s: string, p: string) {
    |p| <= |s| && s[|s| - |p|..] == p
  }

  /** `p` occurs in `s` at index `i`. */
  predicate OccursAt(s: string, p: string, i: int) {
    0 <= i && i + |p| <= |s| && s[i..i + |p|] == p
  }

  /** `s.includes(p)`. */
  predicate Contains(s: string, p: string) {
    exists i :: 0 <= i <= |s| && OccursAt(s, p, i)
  }

  /** The expansion `String.prototype.replace` applies to a string replacement
      (GetSubstitution, with no capture groups): `$$` is "$", `$&` the matched
      text, `` $` `` the text before the match, `$'` the text after it; any other
      `$` is literal. */
  function Expand(rep: string, matched: string, before: string, after: string): (r: string)
    ensures '$' !in rep ==> r == rep
  {
    if |rep| == 0 then ""
    else if rep[0] == '$' && |rep| >= 2 && rep[1] == '$' then "$" + Expand(rep[2..], matched, before, after)
    else if rep[0] == '$' && |rep| >= 2 && rep[1] == '&' then matched + Expand(rep[2..], matched, before, after)
    else if rep[0] == '$' && |rep| >= 2 && rep[1] == '`' then before + Expand(rep[2..], matched, before, after)
    else if rep[0] == '$' && |rep| >= 2 && rep[1] == '\'' then after + Expand(rep[2..], matched, before, after)
    else [rep[0]] + Expand(rep[1..], matched, before, after)
  }

  /** `s.replace(/p/g, rep)` for a literal pattern `p`, scanning from index `i`. */
  function ReplaceAllFrom(s: string, p: string, rep: string, i: nat): (r: string)
    requires |p| > 0 && i <= |s|
    decreases |s| - i
  {
    if i == |s| then ""
    else if OccursAt(s, p, i) then Expand(rep, p, s[..i], s[i + |p|..]) + ReplaceAllFrom(s, p, rep, i + |p|)
    else [s[i]] + ReplaceAllFrom(s, p, rep, i + 1)
  }

  function ReplaceAll(s: string, p: string, rep: string): string
    requires |p| > 0
  {
    ReplaceAllFrom(s, p, rep, 0)
  }

  lemma {:induction false} ReplaceAllFromNoMatch(s: string, p: string, rep: string, i: nat)
    requires |p| > 0 && i <= |s|
    requires forall k :: i <= k < |s| ==> !OccursAt(s, p, k)
    ensures ReplaceAllFrom(s, p, rep, i) == s[i..]
    decreases |s| - i
  {
    if i < |s| {
      ReplaceAllFromNoMatch(s, p, rep, i + 1);
    }
  }

  /** Text without the pattern comes back unchanged. */
  lemma ReplaceAllNoMatch(s: string, p: string, rep: string)
    requires |p| > 0 && !Contains(s, p)
    ensures ReplaceAll(s, p, rep) == s
  {
    ReplaceAllFromNoMatch(s, p, rep, 0);
  }

  /** The pattern alone becomes the (expanded) replacement. */
  lemma ReplaceAllWhole(p: string, rep: string)
    requires |p| > 0
    ensures ReplaceAll(p, p, rep) == Expand(rep, p, "", "")
  {
    assert OccursAt(p, p, 0);
    assert p[..0] == "" && p[|p|..] == "";
    assert ReplaceAllFrom(p, p, rep, |p|) == "";
  }

  /** The pattern alone, replaced by text without `$`, is that text. */
  lemma ReplaceAllWholePlain(p: string, rep: string)
    requires |p| > 0 && '$' !in rep
    ensures ReplaceAll(p, p, rep) == rep
  {
    ReplaceAllWhole(p, rep);
  }

  /** Index of the first occurrence of `p` in `s` at or after `i`, if any. */
  function IndexOfFrom(s: string, p: string, i: nat): (r: Option<nat>)
    requires i <= |s|
    ensures r.Some? ==> i <= r.value <= |s| && OccursAt(s, p, r.value)
    ensures r.Some? ==> forall k :: i <= k < r.value ==> !OccursAt(s, p, k)
    ensures r.None? ==> forall k :: i <= k <= |s| ==> !OccursAt(s, p, k)
    decreases |s| - i
  {
    if OccursAt(s, p, i) then Some(i)
    else if i == |s| then None
    else IndexOfFrom(s, p, i + 1)
  }

  /** `s.replace(p, rep)` with a string pattern: only the first occurrence. */
  function ReplaceFirst(s: string, p: string, rep: string): (r: string)
    ensures !Contains(s, p) ==> r == s
  {
    match IndexOfFrom(s, p, 0)
    case None => s
    case Some(k) => s[..k] + Expand(rep, p, s[..k], s[k + |p|..]) + s[k + |p|..]
  }

  /** `ReplaceFirst` splices the replacement over the first occurrence and keeps the rest. */
  lemma ReplaceFirstSplices(s: string, p: string, rep: string, k: nat)
    requires OccursAt(s, p, k) && forall j :: 0 <= j < k ==> !OccursAt(s, p, j)
    requires '$' !in rep
    ensures ReplaceFirst(s, p, rep) == s[..k] + rep + s[k + |p|..]
  {
    var r := IndexOfFrom(s, p, 0);
    assert r.Some? && r.value == k;
  }

  /** An occurrence at `i` with none before it is the one `IndexOfFrom`
      finds. */
  lemma IndexOfFirst(s: string, p: string, i: nat)
    requires i <= |s| && OccursAt(s, p, i)
    ensures IndexOfFrom(s, p, i) == Some(i)
  {
  }

  /** An occurrence at the start is the one `ReplaceFirst` replaces. */
  lemma ReplaceFirstAtStart(s: string, p: string, rep: string)
    requires OccursAt(s, p, 0)
    ensures ReplaceFirst(s, p, rep) == s[..0] + Expand(rep, p, s[..0], s[|p|..]) + s[|p|..]
  {
    IndexOfFirst(s, p, 0);
  }



  /** `s || ""` for an optional string. */
  function OrEmpty(s: Option<string>): (r: string)
    ensures s.Some? ==> r == s.value
    ensures s.None? ==> r == ""
  {
    if s.Some? then s.value else ""
  }

  /** `s.split(c)` for a one-character separator. */
  function Split(s: string, c: char): (r: seq<string>)
    ensures |r| > 0
    ensures forall i :: 0 <= i < |r| ==> c !in r[i]
    decreases |s|
  {
    if |s| == 0 then [""]
    else
      var rest := Split(s[1..], c);
      if s[0] == c then [""] + rest else [[s[0]] + rest[0]] + rest[1..]
  }

  /** Splitting undoes joining on a separator the parts do not contain. */
  lemma {:induction false} SplitJoin(xs: seq<string>, c: char)
    requires |xs| > 0
    requires forall i :: 0 <= i < |xs| ==> c !in xs[i]
    ensures Split(Join(xs, [c]), c) == xs
    decreases |xs|, |xs[0]|
  {
    if |xs[0]| > 0 {
      var ys := [xs[0][1..]] + xs[1..];
      assert forall i :: 0 <= i < |ys| ==> c !in ys[i] by {
        forall i | 0 <= i < |ys| ensures c !in ys[i] {
          if i == 0 { assert forall x :: x in xs[0][1..] ==> x in xs[0]; } else { assert ys[i] == xs[i]; }
        }
      }
      SplitJoin(ys, c);
      assert Join(xs, [c]) == [xs[0][0]] + Join(ys, [c]) by {
        if |xs| == 1 {
        } else {
          assert ys[1..] == xs[1..];
          assert xs[0] == [xs[0][0]] + xs[0][1..];
        }
      }
      assert xs[0][0] != c;
      assert (Join(xs, [c]))[1..] == Join(ys, [c]);
      assert ys[0] == xs[0][1..] && ys[1..] == xs[1..];
      assert xs[0] == [xs[0][0]] + xs[0][1..];
      assert xs == [xs[0]] + xs[1..];
    } else if |xs| > 1 {
      SplitJoin(xs[1..], c);
      assert Join(xs, [c]) == [c] + Join(xs[1..], [c]);
      assert (Join(xs, [c]))[1..] == Join(xs[1..], [c]);
    }
  }

  /** Splitting at a separator character splits each side. */
  lemma {:induction false} SplitAround(a: string, b: string, c: char)
    ensures Split(a + [c] + b, c) == Split(a, c) + Split(b, c)
    decreases |a|
  {
    var s := a + [c] + b;
    if |a| == 0 {
      assert s == [c] + b && s[1..] == b;
    } else {
      assert s[1..] == a[1..] + [c] + b;
      SplitAround(a[1..], b, c);
    }
  }

  /** A pattern whose first character does not occur is not contained. */
  lemma FirstCharAbsent(s: string, p: string)
    requires |p| > 0 && p[0] !in s
    ensures !Contains(s, p)
  {
    forall i | 0 <= i <= |s| ensures !OccursAt(s, p, i) {
      if i + |p| <= |s| {
        assert s[i..i + |p|][0] == s[i];
      }
    }
  }

  /** A different text of the same length does not contain the pattern. */
  lemma SameLengthAbsent(s: string, p: string)
    requires |s| == |p| && s != p
    ensures !Contains(s, p)
  {
    assert s[0..|p|] == s;
  }

  /** Joining parts that avoid `c` with a separator that avoids `c`. */
  lemma {:induction false} JoinAvoids(xs: seq<string>, sep: string, c: char)
    requires c !in sep && forall i :: 0 <= i < |xs| ==> c !in xs[i]
    ensures c !in Join(xs, sep)
    decreases |xs|
  {
    if |xs| > 1 {
      JoinAvoids(xs[1..], sep, c);
    }
  }

  /** `k in o` for an object's own keys. */
  predicate HasKey(v: JsValue, k: string) {
    v.Obj? && exists i :: 0 <= i < |v.fields| && v.fields[i].0 == k
  }

  /** Index of the first field named `k`. */
  function FieldIndex(fields: seq<(string, JsValue)>, k: string): (r: Option<nat>)
    ensures r.Some? ==> r.value < |fields| && fields[r.value].0 == k
    ensures r.Some? ==> forall i :: 0 <= i < r.value ==> fields[i].0 != k
    ensures r.None? ==> forall i :: 0 <= i < |fields| ==> fields[i].0 != k
  {
    if |fields| == 0 then None
    else if fields[0].0 == k then Some(0)
    else match FieldIndex(fields[1..], k)
      case None => None
      case Some(j) => Some(j + 1)
  }

  /** `v[k]` read on a non-nullish value: the field of an object, and
      `undefined` for a missing key or any other kind of value. */
  function Get(v: JsValue, k: string): (r: JsValue)
    ensures !HasKey(v, k) ==> r == Undefined
  {
    if v.Obj? then
      match FieldIndex(v.fields, k)
      case None => Undefined
      case Some(i) => v.fields[i].1
    else Undefined
  }

  /** `o[k] = x` on an object that has the key: the value is replaced where
      it stands. */
  function SetField(fields: seq<(string, JsValue)>, k: string, x: JsValue): (r: seq<(string, JsValue)>)
    ensures |r| == |fields|
    ensures forall i :: 0 <= i < |r| ==> r[i].0 == fields[i].0
    ensures forall i :: 0 <= i < |r| ==> r[i].1 == (if fields[i].0 == k then x else fields[i].1)
  {
    seq(|fields|, i requires 0 <= i < |fields| => (fields[i].0, if fields[i].0 == k then x else fields[i].1))
  }

  /** The keys of a concatenation of entries are the keys of either part. */
  lemma HasKeyAppend(a: seq<(string, JsValue)>, b: seq<(string, JsValue)>, k: string)
    ensures HasKey(Obj(a + b), k) <==> HasKey(Obj(a), k) || HasKey(Obj(b), k)
  {
    var ab := a + b;
    if HasKey(Obj(a), k) {
      var i :| 0 <= i < |a| && a[i].0 == k;
      assert ab[i].0 == k;
    }
    if HasKey(Obj(b), k) {
      var i :| 0 <= i < |b| && b[i].0 == k;
      assert ab[|a| + i].0 == k;
    }
    if HasKey(Obj(ab), k) {
      var i :| 0 <= i < |ab| && ab[i].0 == k;
      if i >= |a| {
        assert b[i - |a|].0 == k;
      } else {
        assert a[i].0 == k;
      }
    }
  }

  /** Reading a key of a concatenation finds it in the first part that has
      it. */
  lemma {:induction false} GetAppend(a: seq<(string, JsValue)>, b: seq<(string, JsValue)>, k: string)
    ensures Get(Obj(a + b), k) == if HasKey(Obj(a), k) then Get(Obj(a), k) else Get(Obj(b), k)
    decreases |a|
  {
    if |a| > 0 {
      assert (a + b)[1..] == a[1..] + b;
      if a[0].0 != k {
        GetAppend(a[1..], b, k);
        assert HasKey(Obj(a), k) <==> HasKey(Obj(a[1..]), k) by {
          if HasKey(Obj(a), k) {
            var i :| 0 <= i < |a| && a[i].0 == k;
            assert a[1..][i - 1].0 == k;
          }
          if HasKey(Obj(a[1..]), k) {
            var i :| 0 <= i < |a[1..]| && a[1..][i].0 == k;
            assert a[i + 1].0 == k;
          }
        }
      }
    } else {
      assert a + b == b;
    }
  }
}
