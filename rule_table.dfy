/** Ordered rule tables: each rule of a fixed table either fires or not.
    `Pick` keeps the effects of every rule that fired, in table order (the
    stack fingerprints and the recommendations); `FirstMatch` keeps only the
    first one (the sitemap variants and the identity files). */
module RuleTable {

  /** The indices, below `n`, of the rules that fired, in rule order. */
  function Chosen(fires: seq<bool>, n: nat): (idx: seq<nat>)
    requires n <= |fires|
    ensures |idx| <= n
    ensures forall k :: 0 <= k < |idx| ==> idx[k] < n && fires[idx[k]]
    ensures forall i :: 0 <= i < n && fires[i] ==> i in idx
    ensures forall k, l :: 0 <= k < l < |idx| ==> idx[k] < idx[l]
  {
    if n == 0 then [] else Chosen(fires, n - 1) + (if fires[n - 1] then [n - 1] else [])
  }

  /** The effects of the first `n` rules that fired, in rule order. */
  function Picked<T>(table: seq<T>, fires: seq<bool>, n: nat): seq<T>
    requires |table| == |fires| && n <= |table|
  {
    if n == 0 then [] else Picked(table, fires, n - 1) + (if fires[n - 1] then [table[n - 1]] else [])
  }

  /** The effects of all rules that fired, in rule order. */
  function Pick<T>(table: seq<T>, fires: seq<bool>): seq<T>
    requires |table| == |fires|
  {
    Picked(table, fires, |table|)
  }

  /** How many of the first `n` rules fired; for a rule `i` that fired,
      `CountFired(fires, i)` is the position of its effect in the picked list. */
  function CountFired(fires: seq<bool>, n: nat): nat
    requires n <= |fires|
  {
    if n == 0 then 0 else CountFired(fires, n - 1) + (if fires[n - 1] then 1 else 0)
  }

  /** The chosen indices are as many as the rules that fired. */
  lemma {:induction false} ChosenCount(fires: seq<bool>, n: nat)
    requires n <= |fires|
    ensures |Chosen(fires, n)| == CountFired(fires, n)
  {
    if n > 0 {
      ChosenCount(fires, n - 1);
    }
  }

  /** The picked effects are those of the chosen rules, in order. */
  lemma {:induction false} PickedChosen<T>(table: seq<T>, fires: seq<bool>, n: nat)
    requires |table| == |fires| && n <= |table|
    ensures |Picked(table, fires, n)| == |Chosen(fires, n)|
    ensures forall k :: 0 <= k < |Chosen(fires, n)| ==> Picked(table, fires, n)[k] == table[Chosen(fires, n)[k]]
  {
    if n > 0 {
      PickedChosen(table, fires, n - 1);
    }
  }

  /** Deciding the later rules only appends: earlier choices stay. */
  lemma {:induction false} ChosenPrefix(fires: seq<bool>, m: nat, n: nat)
    requires m <= n <= |fires|
    ensures Chosen(fires, m) <= Chosen(fires, n)
    decreases n - m
  {
    if m < n {
      ChosenPrefix(fires, m + 1, n);
    }
  }

  /** A rule that fired has its effect at position `CountFired(fires, i)`. */
  lemma PickAt<T>(table: seq<T>, fires: seq<bool>, i: nat)
    requires |table| == |fires| && i < |fires| && fires[i]
    ensures CountFired(fires, i) < |Pick(table, fires)|
    ensures Pick(table, fires)[CountFired(fires, i)] == table[i]
  {
    ChosenCount(fires, i);
    ChosenPrefix(fires, i + 1, |fires|);
    PickedChosen(table, fires, |fires|);
    assert Chosen(fires, i + 1) == Chosen(fires, i) + [i];
  }

  /** Rules that fired keep their table order in the picked list. */
  lemma CountOrdered(fires: seq<bool>, i: nat, j: nat)
    requires i < j <= |fires| && fires[i]
    ensures CountFired(fires, i) < CountFired(fires, j)
  {
    ChosenCount(fires, i);
    ChosenCount(fires, j);
    ChosenPrefix(fires, i + 1, j);
    assert Chosen(fires, i + 1) == Chosen(fires, i) + [i];
  }

  /** Every picked entry is the effect of a rule that fired. */
  lemma PickSound<T>(table: seq<T>, fires: seq<bool>, k: nat)
    requires |table| == |fires| && k < |Pick(table, fires)|
    ensures exists i :: 0 <= i < |fires| && fires[i] && Pick(table, fires)[k] == table[i]
  {
    PickedChosen(table, fires, |table|);
    var i := Chosen(fires, |fires|)[k];
    assert fires[i] && Pick(table, fires)[k] == table[i];
  }

  predicate Distinct<T(==)>(s: seq<T>)
  {
    forall k, l :: 0 <= k < l < |s| ==> s[k] != s[l]
  }

  /** With distinct effects, no effect is emitted twice ... */
  lemma PickDistinct<T>(table: seq<T>, fires: seq<bool>)
    requires |table| == |fires| && Distinct(table)
    ensures Distinct(Pick(table, fires))
  {
    PickedChosen(table, fires, |table|);
    var idx, r := Chosen(fires, |fires|), Pick(table, fires);
    forall k, l | 0 <= k < l < |r| ensures r[k] != r[l] {
      assert idx[k] < idx[l];
    }
  }

  /** ... and an effect is emitted exactly when its rule fired. */
  lemma PickMember<T>(table: seq<T>, fires: seq<bool>, i: nat)
    requires |table| == |fires| && Distinct(table) && i < |table|
    ensures table[i] in Pick(table, fires) <==> fires[i]
  {
    if fires[i] {
      PickAt(table, fires, i);
    } else {
      PickedChosen(table, fires, |table|);
      var idx, r := Chosen(fires, |fires|), Pick(table, fires);
      forall k | 0 <= k < |r| ensures r[k] != table[i] {
        assert idx[k] != i;
      }
    }
  }

  /** When every rule fires the whole table is emitted, in order. */
  lemma {:induction false} PickedAll<T>(table: seq<T>, fires: seq<bool>, n: nat)
    requires |table| == |fires| && n <= |table|
    requires forall i :: 0 <= i < |fires| ==> fires[i]
    ensures Picked(table, fires, n) == table[..n]
  {
    if n > 0 {
      PickedAll(table, fires, n - 1);
      assert table[..n] == table[..n - 1] + [table[n - 1]];
    }
  }

  /** When none of the first `n` rules fires nothing is emitted for them. */
  lemma {:induction false} PickedNone<T>(table: seq<T>, fires: seq<bool>, n: nat)
    requires |table| == |fires| && n <= |table|
    requires forall i :: 0 <= i < n ==> !fires[i]
    ensures Picked(table, fires, n) == []
  {
    if n > 0 {
      PickedNone(table, fires, n - 1);
    }
  }

  /** At most `n` of the first `n` rules fire. */
  lemma {:induction false} CountFiredBounded(fires: seq<bool>, n: nat)
    requires n <= |fires|
    ensures CountFired(fires, n) <= n
  {
    if n > 0 {
      CountFiredBounded(fires, n - 1);
    }
  }

  /** When none of the first `n` rules fires the count is zero. */
  lemma {:induction false} CountFiredNone(fires: seq<bool>, n: nat)
    requires n <= |fires|
    requires forall i :: 0 <= i < n ==> !fires[i]
    ensures CountFired(fires, n) == 0
  {
    if n > 0 {
      CountFiredNone(fires, n - 1);
    }
  }

  /** Turning one rule that did not fire into one that does adds exactly
      one to the count, if the rule lies below `n`. */
  lemma {:induction false} CountFiredRaise(fires: seq<bool>, i: nat, n: nat)
    requires i < |fires| && !fires[i] && n <= |fires|
    ensures CountFired(fires[i := true], n) == CountFired(fires, n) + (if i < n then 1 else 0)
  {
    if n > 0 {
      CountFiredRaise(fires, i, n - 1);
    }
  }

  /** More rules firing never counts fewer. */
  lemma {:induction false} CountFiredMonotone(fires: seq<bool>, more: seq<bool>, n: nat)
    requires |fires| == |more| && n <= |fires|
    requires forall i :: 0 <= i < n && fires[i] ==> more[i]
    ensures CountFired(fires, n) <= CountFired(more, n)
  {
    if n > 0 {
      CountFiredMonotone(fires, more, n - 1);
    }
  }

  /** The effect of the first rule that fired, or `default` when none did. */
  function FirstMatch<T>(table: seq<T>, fires: seq<bool>, default: T): T
    requires |table| == |fires|
    decreases |table|
  {
    if table == [] then default
    else if fires[0] then table[0]
    else FirstMatch(table[1..], fires[1..], default)
  }

  /** First match wins: rule `i` decides when it fires and no earlier rule does. */
  lemma {:induction false} FirstMatchPrecedence<T>(table: seq<T>, fires: seq<bool>, default: T, i: nat)
    requires |table| == |fires| && i < |fires| && fires[i]
    requires forall j :: 0 <= j < i ==> !fires[j]
    ensures FirstMatch(table, fires, default) == table[i]
    decreases i
  {
    if i > 0 {
      FirstMatchPrecedence(table[1..], fires[1..], default, i - 1);
    }
  }

  /** When no rule fires the default is returned. */
  lemma {:induction false} FirstMatchNone<T>(table: seq<T>, fires: seq<bool>, default: T)
    requires |table| == |fires|
    requires forall j :: 0 <= j < |fires| ==> !fires[j]
    ensures FirstMatch(table, fires, default) == default
    decreases |table|
  {
    if table != [] {
      FirstMatchNone(table[1..], fires[1..], default);
    }
  }
}
