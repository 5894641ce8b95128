/** The `{{name}}` placeholder scan shared by the three substituters. It is
    what `template.replace(/\{\{(NAME)\}\}/g, callback)` does: a single
    left-to-right pass, each match replaced by the callback's text, which is
    never scanned again. Two name grammars occur: `\w+` and `[\w-]+`. */
module Placeholders {
  import Js

  datatype Grammar = Word | WordOrHyphen

  /** `\w` is `[A-Za-z0-9_]`; the wide grammar adds `-`. */
  predicate IsIdentChar(g: Grammar, c: char) {
    ('A' <= c <= 'Z') || ('a' <= c <= 'z') || ('0' <= c <= '9') || c == '_'
    || (g == WordOrHyphen && c == '-')
  }

  predicate IsName(g: Grammar, n: string) {
    |n| > 0 && forall i :: 0 <= i < |n| ==> IsIdentChar(g, n[i])
  }

  /** Length of the longest prefix of `t` made of name characters. */
  function IdentRun(g: Grammar, t: string): (k: nat)
    ensures k <= |t|
    ensures forall i :: 0 <= i < k ==> IsIdentChar(g, t[i])
    ensures k < |t| ==> !IsIdentChar(g, t[k])
  {
    if |t| > 0 && IsIdentChar(g, t[0]) then 1 + IdentRun(g, t[1..]) else 0
  }

  /** The length of the placeholder token at the start of `s`, if one starts
      there. Because `}` is not a name character, the greedy name run is the
      only candidate the regular expression can accept. */
  function TokenLength(g: Grammar, s: string): (r: Js.Option<nat>)
    ensures r.Some? ==> 5 <= r.value <= |s|
  {
    if |s| >= 2 && s[0] == '{' && s[1] == '{' then
      var e := 2 + IdentRun(g, s[2..]);
      if e > 2 && e + 2 <= |s| && s[e] == '}' && s[e + 1] == '}' then Js.Some(e + 2) else Js.None
    else Js.None
  }

  /** One pass: replace every token by `subst(name)`. */
  function Substitute(g: Grammar, s: string, subst: string -> string): string
    decreases |s|
  {
    if |s| == 0 then ""
    else match TokenLength(g, s)
      case Some(k) => subst(s[2..k - 2]) + Substitute(g, s[k..], subst)
      case None => [s[0]] + Substitute(g, s[1..], subst)
  }

  predicate TokenAt(g: Grammar, s: string, i: int)
    requires 0 <= i <= |s|
  {
    TokenLength(g, s[i..]).Some?
  }

  lemma {:induction false} IdentRunOfName(g: Grammar, n: string, rest: string)
    requires IsName(g, n) || n == ""
    requires rest == "" || !IsIdentChar(g, rest[0])
    ensures IdentRun(g, n + rest) == |n|
    decreases |n|
  {
    if |n| > 0 {
      assert (n + rest)[1..] == n[1..] + rest;
      IdentRunOfName(g, n[1..], rest);
    } else {
      assert n + rest == rest;
    }
  }

  /** A token is replaced by its callback text, whatever that text contains:
      substituted text is not rescanned. */
  lemma TokenThenRest(g: Grammar, n: string, rest: string, subst: string -> string)
    requires IsName(g, n)
    ensures Substitute(g, "{{" + n + "}}" + rest, subst) == subst(n) + Substitute(g, rest, subst)
  {
    var s := "{{" + n + "}}" + rest;
    var k := |n| + 4;
    TokenOfName(g, n, rest);
    assert s[2..k - 2] == n;
    assert s[k..] == rest;
  }

  /** `{{name}}` at the start of a text is a token of the name's length
      plus four. */
  lemma TokenOfName(g: Grammar, n: string, rest: string)
    requires IsName(g, n)
    ensures TokenLength(g, "{{" + n + "}}" + rest) == Js.Some(|n| + 4)
  {
    var s := "{{" + n + "}}" + rest;
    assert s[0] == '{' && s[1] == '{';
    assert s[2..] == n + ("}}" + rest);
    IdentRunOfName(g, n, "}}" + rest);
    assert s[2 + |n|] == '}' && s[3 + |n|] == '}';
  }

  /** A character that does not begin a token is copied. */
  lemma CharThenRest(g: Grammar, c: char, rest: string, subst: string -> string)
    requires TokenLength(g, [c] + rest).None?
    ensures Substitute(g, [c] + rest, subst) == [c] + Substitute(g, rest, subst)
  {
    assert ([c] + rest)[1..] == rest;
  }

  lemma {:induction false} NoTokenUnchanged(g: Grammar, s: string, subst: string -> string)
    requires forall i :: 0 <= i <= |s| ==> !TokenAt(g, s, i)
    ensures Substitute(g, s, subst) == s
    decreases |s|
  {
    if |s| > 0 {
      assert s[0..] == s;
      assert !TokenAt(g, s, 0);
      assert TokenLength(g, s).None?;
      forall i | 0 <= i <= |s[1..]| ensures !TokenAt(g, s[1..], i) {
        assert s[1..][i..] == s[i + 1..];
        assert !TokenAt(g, s, i + 1);
      }
      NoTokenUnchanged(g, s[1..], subst);
    }
  }

  /** A text without `{{` has no token, so the pass returns it unchanged. */
  lemma NoBracesUnchanged(g: Grammar, s: string, subst: string -> string)
    requires forall i :: 0 <= i < |s| - 1 ==> !(s[i] == '{' && s[i + 1] == '{')
    ensures Substitute(g, s, subst) == s
  {
    forall i | 0 <= i <= |s| ensures !TokenAt(g, s, i) {
      if i + 1 < |s| { assert s[i..][0] == s[i] && s[i..][1] == s[i + 1]; }
    }
    NoTokenUnchanged(g, s, subst);
  }

  /** `{{a-b}}` is a token for `[\w-]+` but not for `\w+`. */
  lemma HyphenOnlyInWideGrammar(subst: string -> string)
    ensures Substitute(Word, "{{a-b}}", subst) == "{{a-b}}"
    ensures Substitute(WordOrHyphen, "{{a-b}}", subst) == subst("a-b")
  {
    HyphenNotWordToken(subst);
    HyphenWideToken(subst);
  }

  lemma HyphenWideToken(subst: string -> string)
    ensures Substitute(WordOrHyphen, "{{a-b}}", subst) == subst("a-b")
  {
    assert IsName(WordOrHyphen, "a-b");
    TokenThenRest(WordOrHyphen, "a-b", "", subst);
    assert "{{a-b}}" == "{{" + "a-b" + "}}" + "";
    assert Substitute(WordOrHyphen, "", subst) == "";
  }

  lemma HyphenStopsWord()
    ensures TokenLength(Word, "{{a-b}}").None?
  {
    var s := "{{a-b}}";
    assert s[2..] == "a-b}}";
    assert IdentRun(Word, "a-b}}") == 1 by {
      assert "a-b}}"[1..] == "-b}}";
    }
  }

  lemma HyphenNotWordToken(subst: string -> string)
    ensures Substitute(Word, "{{a-b}}", subst) == "{{a-b}}"
  {
    var s := "{{a-b}}";
    var t := "{a-b}}";
    HyphenStopsWord();
    assert ['{'] + t == s;
    CharThenRest(Word, '{', t, subst);
    NoBracesUnchanged(Word, t, subst);
  }


  /** Two callbacks that agree on every name give the same result. */
  lemma {:induction false} SubstituteCongruent(g: Grammar, s: string, f1: string -> string, f2: string -> string)
    requires forall n :: f1(n) == f2(n)
    ensures Substitute(g, s, f1) == Substitute(g, s, f2)
    decreases |s|
  {
    if |s| > 0 {
      match TokenLength(g, s)
      case Some(k) => SubstituteCongruent(g, s[k..], f1, f2);
      case None => SubstituteCongruent(g, s[1..], f1, f2);
    }
  }

  /** The two grammars only differ on `-`: on a text without hyphens they
      find the same tokens. */
  lemma {:induction false} IdentRunWithoutHyphen(t: string)
    requires '-' !in t
    ensures IdentRun(Word, t) == IdentRun(WordOrHyphen, t)
    decreases |t|
  {
    if |t| > 0 {
      assert t[0] != '-';
      assert forall x :: x in t[1..] ==> x in t;
      IdentRunWithoutHyphen(t[1..]);
    }
  }

  lemma {:induction false} GrammarsAgreeWithoutHyphen(s: string, f: string -> string)
    requires '-' !in s
    ensures Substitute(Word, s, f) == Substitute(WordOrHyphen, s, f)
    decreases |s|
  {
    if |s| > 0 {
      if |s| >= 2 {
        assert forall x :: x in s[2..] ==> x in s;
        IdentRunWithoutHyphen(s[2..]);
      }
      assert TokenLength(Word, s) == TokenLength(WordOrHyphen, s);
      assert forall x :: x in s[1..] ==> x in s;
      match TokenLength(Word, s)
      case Some(k) =>
        assert forall x :: x in s[k..] ==> x in s;
        GrammarsAgreeWithoutHyphen(s[k..], f);
      case None => GrammarsAgreeWithoutHyphen(s[1..], f);
    }
  }
}
