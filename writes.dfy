/** Dictionaries filled by a loop of conditional assignments
    (`if (...) obj[key] = value`): each step either assigns a key or leaves
    the dictionary alone, and a later assignment to the same key overwrites
    an earlier one. A step is a key with `Some(value)` to assign or `None`
    to skip. */
module Writes {
  import opened Js

  /** The map after applying the steps `ws` in order to `m`. */
  function Apply<K(==), V>(m: map<K, V>, ws: seq<(K, Option<V>)>): map<K, V>
    decreases |ws|
  {
    if |ws| == 0 then m
    else
      var prev := Apply(m, ws[..|ws| - 1]);
      match ws[|ws| - 1].1
      case Some(v) => prev[ws[|ws| - 1].0 := v]
      case None => prev
  }

  /** Step `j` assigns `k`. */
  predicate Assigns<K(==), V>(ws: seq<(K, Option<V>)>, k: K, j: int)
    requires 0 <= j < |ws|
  {
    ws[j].0 == k && ws[j].1.Some?
  }

  /** `j` is the last step that assigns `k`. */
  predicate IsLastWrite<K(==), V>(ws: seq<(K, Option<V>)>, k: K, j: int) {
    0 <= j < |ws| && Assigns(ws, k, j) && forall i :: j < i < |ws| ==> !Assigns(ws, k, i)
  }

  lemma {:induction false} ApplyKeys<K, V>(m: map<K, V>, ws: seq<(K, Option<V>)>, k: K)
    ensures k in Apply(m, ws) <==> k in m || exists j :: 0 <= j < |ws| && Assigns(ws, k, j)
    decreases |ws|
  {
    if |ws| > 0 {
      var init := ws[..|ws| - 1];
      ApplyKeys(m, init, k);
      assert forall j :: 0 <= j < |init| ==> init[j] == ws[j];
      if exists j :: 0 <= j < |init| && Assigns(init, k, j) {
        var j :| 0 <= j < |init| && Assigns(init, k, j);
        assert Assigns(ws, k, j);
      }
      if exists j :: 0 <= j < |ws| && Assigns(ws, k, j) {
        var j :| 0 <= j < |ws| && Assigns(ws, k, j);
        if j < |init| { assert Assigns(init, k, j); }
      } else {
        assert !Assigns(ws, k, |ws| - 1);
      }
    }
  }

  /** The value of a key is the one its last assignment wrote. */
  lemma {:induction false} ApplyLast<K, V>(m: map<K, V>, ws: seq<(K, Option<V>)>, k: K, j: int)
    requires IsLastWrite(ws, k, j)
    ensures k in Apply(m, ws) && Apply(m, ws)[k] == ws[j].1.value
    decreases |ws|
  {
    if j < |ws| - 1 {
      var init := ws[..|ws| - 1];
      assert !Assigns(ws, k, |ws| - 1);
      assert forall i :: j < i < |init| ==> !Assigns(ws, k, i) && init[i] == ws[i];
      ApplyLast(m, init, k, j);
    }
  }

  /** A key no step assigns keeps its old state. */
  lemma {:induction false} ApplyUntouched<K, V>(m: map<K, V>, ws: seq<(K, Option<V>)>, k: K)
    requires forall j :: 0 <= j < |ws| ==> !Assigns(ws, k, j)
    ensures (k in Apply(m, ws)) == (k in m)
    ensures k in m ==> Apply(m, ws)[k] == m[k]
    decreases |ws|
  {
    if |ws| > 0 {
      var init := ws[..|ws| - 1];
      forall j | 0 <= j < |init| ensures !Assigns(init, k, j) {
        assert init[j] == ws[j] && !Assigns(ws, k, j);
      }
      ApplyUntouched(m, init, k);
      assert !Assigns(ws, k, |ws| - 1);
    }
  }

  /** Every key that was assigned has a last assignment. */
  lemma {:induction false} LastWriteExists<K, V>(ws: seq<(K, Option<V>)>, k: K, j0: int)
    requires 0 <= j0 < |ws| && Assigns(ws, k, j0)
    ensures exists j :: IsLastWrite(ws, k, j)
    decreases |ws| - j0
  {
    if !IsLastWrite(ws, k, j0) {
      var i :| j0 < i < |ws| && Assigns(ws, k, i);
      LastWriteExists(ws, k, i);
    }
  }
}
