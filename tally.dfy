/** Counting dictionaries (`d[k] = d.get(k, 0) + 1`), as the source-analysis
    view builds them, and the sum of their values. */
module Tally {

  /** The sum of `m[k]` over the keys `keys` of `m`. */
  ghost function SumOver(m: map<string, nat>, keys: set<string>): nat
    requires keys <= m.Keys
    decreases keys
  {
    if keys == {} then 0 else var k :| k in keys; m[k] + SumOver(m, keys - {k})
  }

  /** `sum(m.values())`. */
  ghost function Sum(m: map<string, nat>): nat
  {
    SumOver(m, m.Keys)
  }

  /** The sum does not depend on the order in which keys are taken. */
  lemma SumOverRemove(m: map<string, nat>, keys: set<string>, k: string)
    requires keys <= m.Keys && k in keys
    ensures SumOver(m, keys) == m[k] + SumOver(m, keys - {k})
    decreases keys
  {
    var j :| j in keys && SumOver(m, keys) == m[j] + SumOver(m, keys - {j});
    if j != k {
      SumOverRemove(m, keys - {j}, k);
      SumOverRemove(m, keys - {k}, j);
      assert keys - {j} - {k} == keys - {k} - {j};
    }
  }

  /** The sum over `keys` only reads the entries for `keys`. */
  lemma {:induction false} SumOverFrame(m: map<string, nat>, m': map<string, nat>, keys: set<string>)
    requires keys <= m.Keys && keys <= m'.Keys
    requires forall k :: k in keys ==> m[k] == m'[k]
    ensures SumOver(m, keys) == SumOver(m', keys)
    decreases keys
  {
    if keys != {} {
      var k :| k in keys && SumOver(m, keys) == m[k] + SumOver(m, keys - {k});
      SumOverRemove(m', keys, k);
      SumOverFrame(m, m', keys - {k});
    }
  }

  /** `d[k] = d.get(k, 0) + 1`. */
  function Bump(m: map<string, nat>, k: string): (m': map<string, nat>)
  {
    m[k := (if k in m then m[k] else 0) + 1]
  }

  /** Counting one more occurrence adds one to the sum of the counts. */
  lemma SumBump(m: map<string, nat>, k: string)
    ensures Sum(Bump(m, k)) == Sum(m) + 1
  {
    var m' := Bump(m, k);
    if k in m {
      assert m'.Keys == m.Keys;
      SumOverRemove(m', m'.Keys, k);
      SumOverRemove(m, m.Keys, k);
      SumOverFrame(m, m', m.Keys - {k});
    } else {
      assert m'.Keys - {k} == m.Keys;
      SumOverRemove(m', m'.Keys, k);
      SumOverFrame(m, m', m.Keys);
    }
  }

  /** The dictionary after `d[x] = d.get(x, 0) + 1` for each `x` of `xs` in turn, starting from `init`. */
  function Counted(init: map<string, nat>, xs: seq<string>): map<string, nat>
  {
    if xs == [] then init else Bump(Counted(init, xs[..|xs| - 1]), xs[|xs| - 1])
  }

  /** Counting one more value is one more counter step. */
  lemma CountedSnoc(init: map<string, nat>, xs: seq<string>, x: string)
    ensures Counted(init, xs + [x]) == Bump(Counted(init, xs), x)
  {
    assert (xs + [x])[..|xs|] == xs;
  }

  /** `m` counts the occurrences of each value of `xs`: its keys are `base`
      together with the values of `xs`, each key maps to the number of times
      it occurs in `xs`, and the counts add up to `|xs|`. */
  ghost predicate Tallies(m: map<string, nat>, xs: seq<string>, base: set<string>)
  {
    && (forall k :: k in m <==> k in base || k in xs)
    && (forall k :: k in m ==> m[k] == multiset(xs)[k])
    && Sum(m) == |xs|
  }

  /** A dictionary holding only zero counts for `base` tallies the empty list. */
  lemma TalliesEmpty(m: map<string, nat>, base: set<string>)
    requires m.Keys == base && forall k :: k in m ==> m[k] == 0
    ensures Tallies(m, [], base)
  {
    if m.Keys != {} {
      var k :| k in m.Keys && Sum(m) == m[k] + SumOver(m, m.Keys - {k});
      TalliesEmpty(m - {k}, base - {k});
      SumOverFrame(m, m - {k}, m.Keys - {k});
    }
  }

  /** `d[x] = d.get(x, 0) + 1` keeps the tally in step with the list it counts. */
  lemma TalliesBump(m: map<string, nat>, xs: seq<string>, base: set<string>, x: string)
    requires Tallies(m, xs, base)
    ensures Tallies(Bump(m, x), xs + [x], base)
  {
    SumBump(m, x);
    assert multiset(xs + [x]) == multiset(xs) + multiset{x};
    forall k ensures k in xs + [x] <==> k in xs || k == x {
    }
  }

  /** Counting the values of `xs` into a dictionary that starts with zero
      counts for `base` tallies `xs`. */
  lemma {:induction false} CountedTallies(init: map<string, nat>, xs: seq<string>, base: set<string>)
    requires Tallies(init, [], base)
    ensures Tallies(Counted(init, xs), xs, base)
  {
    if xs != [] {
      var init' := xs[..|xs| - 1];
      CountedTallies(init, init', base);
      TalliesBump(Counted(init, init'), init', base, xs[|xs| - 1]);
      assert init' + [xs[|xs| - 1]] == xs;
    }
  }

  /** Counting the concatenation of two lists counts the first, then the second. */
  lemma {:induction false} CountedAppend(init: map<string, nat>, xs: seq<string>, ys: seq<string>)
    ensures Counted(init, xs + ys) == Counted(Counted(init, xs), ys)
    decreases |ys|
  {
    if ys == [] {
      assert xs + ys == xs;
    } else {
      var ys' := ys[..|ys| - 1];
      assert (xs + ys)[..|xs + ys| - 1] == xs + ys';
      CountedAppend(init, xs, ys');
    }
  }
}
