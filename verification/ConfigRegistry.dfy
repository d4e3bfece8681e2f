/** The registry of configuration sources: sorted by precedence, loaded, and merged in that order. */
module ConfigRegistry {
  import opened Conversation
  import opened ConfigLayers

  /**
   A source, the number of its precedence level (from 10 for the defaults to 60 for the
   command line), and the layer it loads. A source that fails to load is skipped.
   */
  datatype Source = Source(name: string, precedence: nat, loads: Option<Layer>)

  predicate Sorted(s: seq<Source>) {
    forall i, j | 0 <= i < j < |s| :: s[i].precedence <= s[j].precedence
  }

  /** Puts a source behind every source of the same or lower precedence. */
  function Insert(s: seq<Source>, x: Source): (r: seq<Source>)
    requires Sorted(s)
    ensures |r| == |s| + 1 && Sorted(r)
    ensures multiset(r) == multiset(s) + multiset{x}
    ensures forall y | y in r :: y == x || y in s
  {
    if s == [] || s[|s| - 1].precedence <= x.precedence then s + [x] else
      var init := s[..|s| - 1];
      assert s == init + [s[|s| - 1]];
      var r := Insert(init, x);
      assert forall y | y in r :: y.precedence <= s[|s| - 1].precedence;
      r + [s[|s| - 1]]
  }

  /** `sort_by_key`: stable, so sources of equal precedence keep their registration order. */
  function SortByPrecedence(s: seq<Source>): (r: seq<Source>)
    ensures |r| == |s| && Sorted(r) && multiset(r) == multiset(s)
  {
    if s == [] then [] else
      assert s == s[..|s| - 1] + [s[|s| - 1]];
      Insert(SortByPrecedence(s[..|s| - 1]), s[|s| - 1])
  }

  function MergedWith(l: Layer, x: Source): Layer {
    if x.loads.Some? then Merged(l, x.loads.value) else l
  }

  function MergeAll(s: seq<Source>): Layer {
    if s == [] then DEFAULT else MergedWith(MergeAll(s[..|s| - 1]), s[|s| - 1])
  }

  lemma {:induction false} MergeAllStep(s: seq<Source>, i: nat)
    requires i < |s|
    ensures MergeAll(s[..i + 1]) == MergedWith(MergeAll(s[..i]), s[i])
  {
    assert s[..i + 1][..i] == s[..i];
  }

  method MergeSource(merged: ConfigLayer, x: Source)
    modifies merged
    ensures merged.Value() == MergedWith(old(merged.Value()), x)
  {
    if x.loads.Some? {
      merged.Merge(x.loads.value);
    }
  }

  function Resolve(sources: seq<Source>): Layer {
    MergeAll(SortByPrecedence(sources))
  }

  class Registry {
    var sources: seq<Source>

    constructor ()
      ensures sources == []
    {
      sources := [];
    }

    method Register(source: Source)
      modifies this
      ensures sources == old(sources) + [source]
    {
      sources := sources + [source];
    }

    /** The merged layer that the runtime configuration is built from. */
    method Load() returns (r: Layer)
      ensures r == Resolve(sources)
    {
      var sorted := SortByPrecedence(sources);
      var merged := new ConfigLayer();
      var i := 0;
      while i < |sorted|
        invariant 0 <= i <= |sorted| && fresh(merged)
        invariant merged.Value() == MergeAll(sorted[..i])
      {
        MergeAllStep(sorted, i);
        MergeSource(merged, sorted[i]);
        i := i + 1;
      }
      assert sorted[..|sorted|] == sorted;
      r := merged.Value();
    }
  }

  // ----- Which source decides a field

  /** The last source of a list that satisfies `p`. */
  function LastWith(s: seq<Source>, p: Source -> bool): (r: Option<Source>)
    ensures r.Some? ==> r.value in s && p(r.value)
    ensures r.None? ==> forall x | x in s :: !p(x)
  {
    if s == [] then None
    else if p(s[|s| - 1]) then Some(s[|s| - 1])
    else
      assert s == s[..|s| - 1] + [s[|s| - 1]];
      LastWith(s[..|s| - 1], p)
  }

  lemma {:induction false} InsertDecides(s: seq<Source>, x: Source, p: Source -> bool)
    requires Sorted(s)
    ensures var last := LastWith(s, p);
            LastWith(Insert(s, x), p) ==
            if p(x) && (last.None? || last.value.precedence <= x.precedence) then Some(x) else last
  {
    if s == [] || s[|s| - 1].precedence <= x.precedence {
      assert (s + [x])[..|s|] == s;
    } else {
      var init, end := s[..|s| - 1], s[|s| - 1];
      InsertDecides(init, x, p);
      assert (Insert(init, x) + [end])[..|s|] == Insert(init, x);
    }
  }

  /** Every other source that satisfies `p` ranks lower than source `i`, or was registered earlier at the same rank. */
  predicate Outranks(s: seq<Source>, i: nat, p: Source -> bool) {
    && i < |s| && p(s[i])
    && forall j | 0 <= j < |s| && j != i && p(s[j]) ::
         s[j].precedence < s[i].precedence || (s[j].precedence == s[i].precedence && j < i)
  }

  lemma {:induction false} SortedComesFrom(s: seq<Source>, x: Source) returns (j: nat)
    requires x in SortByPrecedence(s)
    ensures j < |s| && s[j] == x
  {
    assert x in multiset(SortByPrecedence(s));
    assert x in multiset(s);
    j :| 0 <= j < |s| && s[j] == x;
  }

  lemma {:induction false} OutrankingIsLast(s: seq<Source>, i: nat, p: Source -> bool)
    requires Outranks(s, i, p)
    ensures LastWith(SortByPrecedence(s), p) == Some(s[i])
  {
    var n := |s| - 1;
    var init, x := s[..n], s[n];
    var sorted := SortByPrecedence(init);
    if i < n {
      assert Outranks(init, i, p);
      OutrankingIsLast(init, i, p);
      assert p(x) ==> x.precedence < s[i].precedence;
    } else if LastWith(sorted, p).Some? {
      var j := SortedComesFrom(init, LastWith(sorted, p).value);
      assert s[j] == LastWith(sorted, p).value;
    }
    InsertDecides(sorted, x, p);
  }

  predicate Sets(x: Source, f: Field) {
    x.loads.Some? && Get(x.loads.value, f).Some?
  }

  /** What the source says about the field. */
  function Setting(x: Option<Source>, f: Field): Option<Value> {
    if x.Some? && x.value.loads.Some? then Get(x.value.loads.value, f) else None
  }

  lemma {:induction false} MergeAllTakesLast(s: seq<Source>, f: Field)
    ensures Get(MergeAll(s), f) == Setting(LastWith(s, x => Sets(x, f)), f)
  {
    if s != [] {
      var init, last := s[..|s| - 1], s[|s| - 1];
      MergeAllTakesLast(init, f);
      if last.loads.Some? {
        MergeIsFieldwise(MergeAll(init), last.loads.value, f);
      }
    }
  }

  /**
   Main result: each field, and each provider entry as a whole, comes from the
   highest-precedence loaded source that sets it; at equal precedence, from the one
   registered last.
   */
  lemma {:induction false} HighestPrecedenceWins(s: seq<Source>, i: nat, f: Field)
    requires Outranks(s, i, x => Sets(x, f))
    ensures Get(Resolve(s), f) == Get(s[i].loads.value, f)
  {
    OutrankingIsLast(s, i, x => Sets(x, f));
    MergeAllTakesLast(SortByPrecedence(s), f);
  }

  /** A field stays unset exactly if no loaded source sets it. */
  lemma {:induction false} UnsetStaysUnset(s: seq<Source>, f: Field)
    ensures Get(Resolve(s), f).None? <==> forall x | x in s :: !Sets(x, f)
  {
    var sorted := SortByPrecedence(s);
    MergeAllTakesLast(sorted, f);
    assert forall x :: x in s <==> x in multiset(s);
    assert forall x :: x in sorted <==> x in multiset(sorted);
  }

  // ----- Registration order

  predicate DistinctPrecedences(s: seq<Source>) {
    forall i, j | 0 <= i < j < |s| :: s[i].precedence != s[j].precedence
  }

  predicate StrictlySorted(s: seq<Source>) {
    forall i, j | 0 <= i < j < |s| :: s[i].precedence < s[j].precedence
  }

  lemma {:induction false} InsertKeepsStrict(s: seq<Source>, x: Source)
    requires Sorted(s) && StrictlySorted(s) && forall y | y in s :: y.precedence != x.precedence
    ensures StrictlySorted(Insert(s, x))
  {
    if s == [] || s[|s| - 1].precedence <= x.precedence {
      forall i | 0 <= i < |s| ensures s[i].precedence < x.precedence {
        assert s[i] in s && s[i].precedence <= s[|s| - 1].precedence;
      }
    } else {
      var init, end := s[..|s| - 1], s[|s| - 1];
      assert forall y | y in init :: y in s;
      InsertKeepsStrict(init, x);
      var r := Insert(init, x);
      forall i | 0 <= i < |r| ensures r[i].precedence < end.precedence {
        assert r[i] == x || r[i] in init;
      }
      assert Insert(s, x) == r + [end];
    }
  }

  lemma {:induction false} DistinctSortStrictly(s: seq<Source>)
    requires DistinctPrecedences(s)
    ensures StrictlySorted(SortByPrecedence(s))
  {
    if s != [] {
      var init, x := s[..|s| - 1], s[|s| - 1];
      DistinctSortStrictly(init);
      forall y | y in SortByPrecedence(init) ensures y.precedence != x.precedence {
        var j := SortedComesFrom(init, y);
        assert s[j] == y;
      }
      InsertKeepsStrict(SortByPrecedence(init), x);
    }
  }

  lemma {:induction false} MultisetOfInit(a: seq<Source>)
    requires a != []
    ensures multiset(a[..|a| - 1]) == multiset(a) - multiset{a[|a| - 1]}
  {
    assert a == a[..|a| - 1] + [a[|a| - 1]];
  }

  lemma {:induction false} SameLast(a: seq<Source>, b: seq<Source>)
    requires a != [] && b != [] && StrictlySorted(a) && Sorted(b) && multiset(a) == multiset(b)
    ensures a[|a| - 1] == b[|b| - 1]
  {
    var x, y := a[|a| - 1], b[|b| - 1];
    assert x in multiset(b) && y in multiset(a);
    var i :| 0 <= i < |a| && a[i] == y;
    var j :| 0 <= j < |b| && b[j] == x;
  }

  lemma {:induction false} StrictOrderIsUnique(a: seq<Source>, b: seq<Source>)
    requires StrictlySorted(a) && Sorted(b) && multiset(a) == multiset(b)
    ensures a == b
  {
    assert |a| == |multiset(a)| == |multiset(b)| == |b|;
    if a != [] {
      SameLast(a, b);
      MultisetOfInit(a);
      MultisetOfInit(b);
      StrictOrderIsUnique(a[..|a| - 1], b[..|b| - 1]);
      assert a == a[..|a| - 1] + [a[|a| - 1]] && b == b[..|b| - 1] + [b[|b| - 1]];
    }
  }

  /** Main result: with distinct precedences, the order of registration makes no difference. */
  lemma {:induction false} RegistrationOrderIrrelevant(a: seq<Source>, b: seq<Source>)
    requires DistinctPrecedences(a) && multiset(a) == multiset(b)
    ensures Resolve(a) == Resolve(b)
  {
    DistinctSortStrictly(a);
    StrictOrderIsUnique(SortByPrecedence(a), SortByPrecedence(b));
  }
}
