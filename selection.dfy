/** The checkbox selections of the list screens (reports, approvals, dashboard items): a list
    of ids toggled one at a time, replaced by "select all" and shown in a header checkbox. */
module Selection {
  import opened Js

  /** `prev.filter(id => id !== x)`. */
  function Without(sel: seq<Value>, x: Value): (r: seq<Value>)
    ensures |r| <= |sel|
  {
    if sel == [] then []
    else (if StrictEquals(sel[0], x) then [] else [sel[0]]) + Without(sel[1..], x)
  }

  /** The toggle handler: a selected id is removed, any other id is appended. */
  function Toggle(sel: seq<Value>, x: Value): seq<Value> {
    if Contains(sel, x) then Without(sel, x) else sel + [x]
  }

  /** The select-all handler: when as many ids are selected as there are rows the selection
      is cleared, otherwise it becomes `all`. */
  function SelectAll(sel: seq<Value>, rowCount: nat, all: seq<Value>): (r: seq<Value>)
    ensures |sel| == rowCount ==> r == []
    ensures |sel| != rowCount ==> r == all
  {
    if |sel| == rowCount then [] else all
  }

  /** `.filter(Boolean)`. */
  function TruthyOnly(vals: seq<Value>): (r: seq<Value>)
    ensures forall v :: v in r ==> Truthy(v) && v in vals
    ensures forall v :: v in vals && Truthy(v) ==> v in r
  {
    if vals == [] then [] else (if Truthy(vals[0]) then [vals[0]] else []) + TruthyOnly(vals[1..])
  }

  /** The ids a select-all box picks: `rows.map(row => row?.[key])`, falsy ones included. */
  function Ids(rows: seq<Value>, key: string): (r: seq<Value>)
    ensures |r| == |rows| && forall i :: 0 <= i < |rows| ==> r[i] == Get(rows[i], key)
  {
    if rows == [] then [] else [Get(rows[0], key)] + Ids(rows[1..], key)
  }

  /** The header checkbox: checked when every shown row is selected and there is a row. */
  predicate HeaderChecked(selectedCount: nat, shownCount: nat) {
    selectedCount == shownCount && shownCount > 0
  }

  /** No id is listed twice. */
  predicate Distinct(sel: seq<Value>) {
    forall i, j :: 0 <= i < j < |sel| ==> !SameValueZero(sel[i], sel[j])
  }

  /** What `Without` keeps: exactly the ids other than `x`, in order. */
  lemma {:induction false} WithoutSpec(sel: seq<Value>, x: Value)
    ensures forall v :: v in Without(sel, x) <==> v in sel && !StrictEquals(v, x)
  {
    if sel != [] {
      WithoutSpec(sel[1..], x);
    }
  }

  lemma {:induction false} WithoutNoMatch(sel: seq<Value>, x: Value)
    requires !Contains(sel, x)
    ensures Without(sel, x) == sel
  {
    if sel != [] {
      forall i | 0 <= i < |sel[1..]| ensures !SameValueZero(sel[1..][i], x) {
        assert sel[1..][i] == sel[i + 1];
      }
      assert !SameValueZero(sel[0], x);
      WithoutNoMatch(sel[1..], x);
    }
  }

  lemma ContainsIffIn(sel: seq<Value>, x: Value)
    requires !x.Arr? && !x.Obj?
    ensures Contains(sel, x) <==> x in sel
  {
    if x in sel {
      var i :| 0 <= i < |sel| && sel[i] == x;
      assert SameValueZero(sel[i], x);
    }
  }

  /** Toggling flips the membership of a comparable id and leaves every other id as it was.
      A `NaN` id, found by `includes` but never removed by `!==`, stays selected. */
  lemma ToggleMembership(sel: seq<Value>, x: Value, y: Value)
    requires !x.Arr? && !x.Obj? && !y.Arr? && !y.Obj?
    ensures x != NaN ==> (Contains(Toggle(sel, x), x) <==> !Contains(sel, x))
    ensures x == NaN ==> Contains(Toggle(sel, x), x)
    ensures y != x ==> (Contains(Toggle(sel, x), y) <==> Contains(sel, y))
  {
    WithoutSpec(sel, x);
    ContainsIffIn(sel, x);
    ContainsIffIn(sel, y);
    ContainsIffIn(Toggle(sel, x), x);
    ContainsIffIn(Toggle(sel, x), y);
  }

  /** Toggling an unselected id twice restores the selection. */
  lemma ToggleTwice(sel: seq<Value>, x: Value)
    requires StrictEquals(x, x)
    requires !Contains(sel, x)
    ensures Toggle(Toggle(sel, x), x) == sel
  {
    assert Contains(sel + [x], x) by {
      assert SameValueZero((sel + [x])[|sel|], x);
    }
    WithoutConcat(sel, [x], x);
    WithoutNoMatch(sel, x);
    assert Without([x], x) == [] by {
      assert [x][1..] == [];
    }
  }

  lemma {:induction false} WithoutConcat(a: seq<Value>, b: seq<Value>, x: Value)
    ensures Without(a + b, x) == Without(a, x) + Without(b, x)
  {
    if a == [] {
      assert a + b == b;
    } else {
      assert (a + b)[0] == a[0];
      assert (a + b)[1..] == a[1..] + b;
      WithoutConcat(a[1..], b, x);
    }
  }

  lemma {:induction false} WithoutDistinct(sel: seq<Value>, x: Value)
    requires Distinct(sel)
    ensures Distinct(Without(sel, x))
  {
    if sel != [] {
      assert Distinct(sel[1..]) by {
        forall i, j | 0 <= i < j < |sel[1..]| ensures !SameValueZero(sel[1..][i], sel[1..][j]) {
          assert sel[1..][i] == sel[i + 1] && sel[1..][j] == sel[j + 1];
        }
      }
      WithoutDistinct(sel[1..], x);
      WithoutSpec(sel[1..], x);
      var rest := Without(sel[1..], x);
      if !StrictEquals(sel[0], x) {
        forall j | 0 <= j < |rest| ensures !SameValueZero(sel[0], rest[j]) {
          assert rest[j] in sel[1..];
          var k :| 0 <= k < |sel[1..]| && sel[1..][k] == rest[j];
          assert sel[k + 1] == rest[j];
        }
        var r := [sel[0]] + rest;
        forall i, j | 0 <= i < j < |r| ensures !SameValueZero(r[i], r[j]) {
          if i > 0 { assert r[i] == rest[i - 1] && r[j] == rest[j - 1]; }
          else { assert r[j] == rest[j - 1]; }
        }
      }
    }
  }

  /** Toggling keeps a selection free of duplicates. */
  lemma ToggleKeepsDistinct(sel: seq<Value>, x: Value)
    requires Distinct(sel)
    ensures Distinct(Toggle(sel, x))
  {
    if Contains(sel, x) {
      WithoutDistinct(sel, x);
    } else {
      var r := sel + [x];
      forall i, j | 0 <= i < j < |r| ensures !SameValueZero(r[i], r[j]) {
        if j == |sel| {
          assert r[i] == sel[i] && r[j] == x;
          assert !SameValueZero(sel[i], x);
        } else {
          assert r[i] == sel[i] && r[j] == sel[j];
        }
      }
    }
  }

  /** After selecting every shown row the header box is checked; deselecting one comparable
      id unchecks it. */
  lemma HeaderAfterDeselect(sel: seq<Value>, x: Value)
    requires StrictEquals(x, x) && x in sel
    ensures HeaderChecked(|sel|, |sel|)
    ensures !HeaderChecked(|Toggle(sel, x)|, |sel|)
  {
    var i :| 0 <= i < |sel| && sel[i] == x;
    assert SameValueZero(sel[i], x);
    WithoutLength(sel, x, i);
  }

  lemma {:induction false} WithoutLength(sel: seq<Value>, x: Value, i: nat)
    requires i < |sel| && StrictEquals(sel[i], x)
    ensures |Without(sel, x)| < |sel|
  {
    if i > 0 {
      WithoutLength(sel[1..], x, i - 1);
    }
  }
}
