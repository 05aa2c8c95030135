/** The comparator `is_subset`: an expected tree is present inside an actual
    tree, extra content in the actual tree being allowed. */
module Subset {
  import opened Wrappers
  import opened Values

  /** `is_subset(expected, actual)`.
      - a null on either side matches only a null;
      - dict against dict: every expected key is in actual and its value
        matches recursively, extra actual keys are ignored;
      - list against list: every expected element matches some actual
        element, and one actual element may serve several expected ones;
      - anything else: Python `==`. */
  predicate IsSubset(e: Json, a: Json)
    decreases e, 0
  {
    if e.Null? || a.Null? then PyEq(e, a)
    else if e.Obj? && a.Obj? then
      forall i | 0 <= i < |e.fields| ::
        HasKey(a.fields, e.fields[i].0) && IsSubset(e.fields[i].1, Lookup(a.fields, e.fields[i].0).value)
    else if e.Arr? && a.Arr? then
      forall i | 0 <= i < |e.items| :: CoveredBy(e.items[i], a.items)
    else PyEq(e, a)
  }

  /** `any(is_subset(x, y) for y in ys)`. */
  predicate CoveredBy(x: Json, ys: seq<Json>)
    decreases x, 1
  {
    exists j | 0 <= j < |ys| :: IsSubset(x, ys[j])
  }

  /** A dict's members as a map from key to value. */
  function ToMap(f: Fields): (m: map<string, Json>)
    ensures m.Keys == Keys(f)
    ensures forall k | k in m :: Some(m[k]) == Lookup(f, k)
  {
    map k | k in Keys(f) :: Lookup(f, k).value
  }

  /** Dict against dict, stated over the dicts as maps: every expected key is
      an actual key, and the expected value is a subset of the actual one. */
  lemma ObjectSubsetIff(ef: Fields, af: Fields)
    requires DistinctKeys(ef)
    ensures IsSubset(Obj(ef), Obj(af)) <==>
      && Keys(ef) <= Keys(af)
      && forall k | k in Keys(ef) :: IsSubset(ToMap(ef)[k], ToMap(af)[k])
  {
    var em, am := ToMap(ef), ToMap(af);
    if IsSubset(Obj(ef), Obj(af)) {
      forall k | k in Keys(ef) ensures k in Keys(af) && IsSubset(em[k], am[k]) {
        var i :| 0 <= i < |ef| && ef[i].0 == k;
        LookupDistinct(ef, i);
        assert HasKey(af, k);
      }
    }
    if Keys(ef) <= Keys(af) && forall k | k in Keys(ef) :: IsSubset(em[k], am[k]) {
      forall i | 0 <= i < |ef|
        ensures HasKey(af, ef[i].0) && IsSubset(ef[i].1, Lookup(af, ef[i].0).value)
      {
        var k := ef[i].0;
        assert k in Keys(ef);
        LookupDistinct(ef, i);
        assert k in Keys(af);
      }
    }
  }

  /** Index of the member a lookup of `k` finds. */
  function FirstIndex(f: Fields, k: string): (i: nat)
    requires HasKey(f, k)
    ensures i < |f| && f[i].0 == k && Lookup(f, k) == Some(f[i].1)
  {
    if f[0].0 == k then 0
    else
      assert HasKey(f[1..], k) by {
        var j :| 0 <= j < |f| && f[j].0 == k;
        assert f[1..][j - 1] == f[j];
      }
      FirstIndex(f[1..], k) + 1
  }

  /** Only the actual values at the expected keys matter. */
  lemma SubsetDependsOnExpectedKeys(ef: Fields, af: Fields, bf: Fields)
    requires forall i | 0 <= i < |ef| :: Lookup(af, ef[i].0) == Lookup(bf, ef[i].0)
    ensures IsSubset(Obj(ef), Obj(af)) == IsSubset(Obj(ef), Obj(bf))
  {
  }

  /** Adding keys that the expected dict does not mention, before or after
      the actual dict's own, never changes the result. */
  lemma ExtraActualKeysIgnored(ef: Fields, af: Fields, extra: Fields)
    requires forall i | 0 <= i < |extra| :: !HasKey(ef, extra[i].0)
    ensures IsSubset(Obj(ef), Obj(af + extra)) == IsSubset(Obj(ef), Obj(af))
    ensures IsSubset(Obj(ef), Obj(extra + af)) == IsSubset(Obj(ef), Obj(af))
  {
    forall i | 0 <= i < |ef|
      ensures Lookup(af + extra, ef[i].0) == Lookup(af, ef[i].0)
      ensures Lookup(extra + af, ef[i].0) == Lookup(af, ef[i].0)
    {
      var k := ef[i].0;
      assert !HasKey(extra, k);
      LookupAppend(af, extra, k);
      LookupAppend(extra, af, k);
    }
    SubsetDependsOnExpectedKeys(ef, af + extra, af);
    SubsetDependsOnExpectedKeys(ef, extra + af, af);
  }

  /** Removing from the actual dict a key the expected dict names makes the
      match fail. */
  lemma RemovedKeyFails(ef: Fields, af: Fields, k: string)
    requires HasKey(ef, k)
    ensures !IsSubset(Obj(ef), Obj(Without(af, [k])))
  {
    var i :| 0 <= i < |ef| && ef[i].0 == k;
    assert Lookup(Without(af, [k]), k).None?;
  }

  /** List against list is a covering test: the empty list is covered by any
      list, and reordering the actual list never changes the result. */
  lemma ListCoveringIgnoresOrder(es: seq<Json>, xs: seq<Json>, ys: seq<Json>)
    requires multiset(xs) == multiset(ys)
    ensures IsSubset(Arr([]), Arr(xs))
    ensures IsSubset(Arr(es), Arr(xs)) == IsSubset(Arr(es), Arr(ys))
  {
    forall x | x in xs ensures x in ys {
      assert x in multiset(xs);
    }
    forall y | y in ys ensures y in xs {
      assert y in multiset(ys);
    }
    forall i | 0 <= i < |es| ensures CoveredBy(es[i], xs) <==> CoveredBy(es[i], ys) {
      if j :| 0 <= j < |xs| && IsSubset(es[i], xs[j]) {
        assert xs[j] in ys;
        var j' :| 0 <= j' < |ys| && ys[j'] == xs[j];
      }
      if j :| 0 <= j < |ys| && IsSubset(es[i], ys[j]) {
        assert ys[j] in xs;
        var j' :| 0 <= j' < |xs| && xs[j'] == ys[j];
      }
    }
  }

  /** Null is no wildcard, and nodes of different kinds never match. */
  lemma MixedKindsFail(e: Json, a: Json)
    ensures (e.Null? || a.Null?) ==> (IsSubset(e, a) <==> e.Null? && a.Null?)
    ensures e.Obj? && !a.Obj? ==> !IsSubset(e, a)
    ensures e.Arr? && !a.Arr? ==> !IsSubset(e, a)
    ensures !e.Obj? && !e.Arr? && (a.Obj? || a.Arr?) ==> !IsSubset(e, a)
  {
  }

  /** Every well-formed node is a subset of itself. */
  lemma {:induction false} SubsetReflexive(x: Json)
    requires WellFormed(x)
    ensures IsSubset(x, x)
  {
    match x
    case Obj(fs) =>
      forall i | 0 <= i < |fs|
        ensures HasKey(fs, fs[i].0) && IsSubset(fs[i].1, Lookup(fs, fs[i].0).value)
      {
        LookupDistinct(fs, i);
        SubsetReflexive(fs[i].1);
      }
    case Arr(xs) =>
      forall i | 0 <= i < |xs| ensures CoveredBy(xs[i], xs) {
        SubsetReflexive(xs[i]);
      }
    case _ =>
      PyEqReflexive(x);
  }

  /** The relation is not symmetric, and one actual element may cover several
      expected ones. */
  lemma NotSymmetric()
    ensures IsSubset(Obj([("a", Int(1))]), Obj([("a", Int(1)), ("b", Int(2))]))
    ensures !IsSubset(Obj([("a", Int(1)), ("b", Int(2))]), Obj([("a", Int(1))]))
    ensures IsSubset(Arr([Int(1), Int(1)]), Arr([Int(1)]))
  {
    var big: Fields := [("a", Int(1)), ("b", Int(2))];
    assert big[0].0 == "a";
    assert !HasKey([("a", Int(1))], big[1].0);
    assert IsSubset(Int(1), Arr([Int(1)]).items[0]);
  }

  /** Equal nodes are subsets of each other's: the equality accept path
      never contradicts the comparator. */
  lemma {:induction false} EqualImpliesSubset(e: Json, a: Json)
    requires PyEq(e, a)
    ensures IsSubset(e, a)
  {
    match e
    case Obj(fs) =>
      forall i | 0 <= i < |fs|
        ensures HasKey(a.fields, fs[i].0) && IsSubset(fs[i].1, Lookup(a.fields, fs[i].0).value)
      {
        EqualImpliesSubset(fs[i].1, Lookup(a.fields, fs[i].0).value);
      }
    case Arr(xs) =>
      forall i | 0 <= i < |xs| ensures CoveredBy(xs[i], a.items) {
        EqualImpliesSubset(xs[i], a.items[i]);
      }
    case _ =>
  }

  /** Subset matching respects equality of the actual side: if `e` is a
      subset of `b` and `b == c`, then `e` is a subset of `c`. */
  lemma {:induction false} SubsetRespectsEquality(e: Json, b: Json, c: Json)
    requires IsSubset(e, b) && PyEq(b, c)
    ensures IsSubset(e, c)
  {
    if e.Null? || b.Null? {
    } else if e.Obj? && b.Obj? {
      forall i | 0 <= i < |e.fields|
        ensures HasKey(c.fields, e.fields[i].0) && IsSubset(e.fields[i].1, Lookup(c.fields, e.fields[i].0).value)
      {
        var k := e.fields[i].0;
        var j := FirstIndex(b.fields, k);
        SubsetRespectsEquality(e.fields[i].1, b.fields[j].1, Lookup(c.fields, k).value);
      }
    } else if e.Arr? && b.Arr? {
      forall i | 0 <= i < |e.items| ensures CoveredBy(e.items[i], c.items) {
        var j :| 0 <= j < |b.items| && IsSubset(e.items[i], b.items[j]);
        SubsetRespectsEquality(e.items[i], b.items[j], c.items[j]);
      }
    }
  }
}
