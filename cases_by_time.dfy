/**
 * The time series a feature-service query returns for one county or one
 * state, and the client-side derivation of the `NewDeaths` attribute:
 * a forward difference of the cumulative `Deaths` of consecutive records.
 */
module CasesByTime {

  /** The attribute bag of one record: one calendar day (`dt`) of one region. */
  datatype Attributes = Attributes(
    dt: int,
    confirmed: int,
    deaths: int,
    newCases: int,
    population: int,
    newDeaths: int)

  /** One `Covid19CasesByTimeFeature`; only its attributes are read or written. */
  datatype Feature = Feature(attributes: Attributes)

  /** `f` with its `NewDeaths` attribute set to `n` and nothing else changed. */
  function SetNewDeaths(f: Feature, n: int): Feature
  {
    Feature(f.attributes.(newDeaths := n))
  }

  /** The two records agree on every attribute except possibly `NewDeaths`. */
  predicate SameExceptNewDeaths(a: Feature, b: Feature)
  {
    a.attributes.dt == b.attributes.dt &&
    a.attributes.confirmed == b.attributes.confirmed &&
    a.attributes.deaths == b.attributes.deaths &&
    a.attributes.newCases == b.attributes.newCases &&
    a.attributes.population == b.attributes.population
  }

  /**
   * The value the mapping callback computes for position `i`: zero when
   * there is no previous record, otherwise the increase of cumulative
   * deaths over the previous record.
   */
  function NewDeathsAt(s: seq<Feature>, i: nat): int
    requires i < |s|
  {
    if i > 0 then s[i].attributes.deaths - s[i - 1].attributes.deaths else 0
  }

  /**
   * The series holds the forward difference of its own `Deaths` in
   * `NewDeaths`: zero at the first record, the day-over-day increase
   * (possibly negative) at every later one.
   */
  predicate NewDeathsConsistent(s: seq<Feature>)
  {
    (|s| > 0 ==> s[0].attributes.newDeaths == 0) &&
    forall i :: 0 < i < |s| ==>
      s[i].attributes.newDeaths == s[i].attributes.deaths - s[i - 1].attributes.deaths
  }

  /**
   * The series `data.features.map(...)` produces: same records, same
   * order, each with `NewDeaths` filled in.
   */
  function DeriveNewDeaths(s: seq<Feature>): (r: seq<Feature>)
    ensures |r| == |s|
    ensures forall i :: 0 <= i < |s| ==> SameExceptNewDeaths(r[i], s[i])
    ensures NewDeathsConsistent(r)
  {
    seq(|s|, i requires 0 <= i < |s| => SetNewDeaths(s[i], NewDeathsAt(s, i)))
  }

  /**
   * The ensures of `DeriveNewDeaths` determine its result: any series of
   * the same length that keeps every other attribute and is consistent
   * is the derived one.
   */
  lemma DerivedIsUnique(s: seq<Feature>, r: seq<Feature>)
    requires |r| == |s|
    requires forall i :: 0 <= i < |s| ==> SameExceptNewDeaths(r[i], s[i])
    requires NewDeathsConsistent(r)
    ensures r == DeriveNewDeaths(s)
  {
    var d := DeriveNewDeaths(s);
    forall i | 0 <= i < |s|
      ensures r[i] == d[i]
    {
      assert r[i].attributes == d[i].attributes;
    }
  }

  /** A series is left unchanged by the derivation exactly when it is already consistent. */
  lemma ConsistentIffFixpoint(s: seq<Feature>)
    ensures NewDeathsConsistent(s) <==> DeriveNewDeaths(s) == s
  {
    if NewDeathsConsistent(s) {
      DerivedIsUnique(s, s);
    }
  }

  /** Deriving twice gives the same series as deriving once. */
  lemma DeriveIdempotent(s: seq<Feature>)
    ensures DeriveNewDeaths(DeriveNewDeaths(s)) == DeriveNewDeaths(s)
  {
    ConsistentIffFixpoint(DeriveNewDeaths(s));
  }

  /**
   * The derivation is causal: the derived value at a position depends only
   * on the records up to it, so deriving a prefix gives a prefix of the
   * derived series.
   */
  lemma DerivePrefix(s: seq<Feature>, k: nat)
    requires k <= |s|
    ensures DeriveNewDeaths(s[..k]) == DeriveNewDeaths(s)[..k]
  {
    var p := DeriveNewDeaths(s[..k]);
    var q := DeriveNewDeaths(s)[..k];
    forall i | 0 <= i < k
      ensures p[i] == q[i]
    {
      assert p[i].attributes == q[i].attributes;
    }
  }

  /** The total of the `NewDeaths` attribute over a series. */
  function SumNewDeaths(s: seq<Feature>): int
  {
    if s == [] then 0 else SumNewDeaths(s[..|s| - 1]) + s[|s| - 1].attributes.newDeaths
  }

  /**
   * The derived daily values add back up to the cumulative count: summing
   * `NewDeaths` over the first k + 1 derived records gives the increase of
   * `Deaths` from the first record to record k.
   */
  lemma {:induction false} NewDeathsTelescope(s: seq<Feature>, k: nat)
    requires k < |s|
    ensures SumNewDeaths(DeriveNewDeaths(s)[..k + 1]) ==
            s[k].attributes.deaths - s[0].attributes.deaths
  {
    var d := DeriveNewDeaths(s);
    if k > 0 {
      NewDeathsTelescope(s, k - 1);
      assert d[..k + 1][..k] == d[..k];
    }
  }

  /**
   * Writes `NewDeaths` into every record of `a` in place, walking the
   * records in order and reading the previous record's `Deaths`, which
   * the earlier step has already visited but not changed.
   */
  method DeriveNewDeathsInPlace(a: array<Feature>)
    modifies a
    ensures a[..] == DeriveNewDeaths(old(a[..]))
  {
    ghost var s := a[..];
    var i := 0;
    while i < a.Length
      invariant 0 <= i <= a.Length
      invariant forall k :: 0 <= k < i ==> a[k] == SetNewDeaths(s[k], NewDeathsAt(s, k))
      invariant forall k :: i <= k < a.Length ==> a[k] == s[k]
    {
      assert i > 0 ==> a[i - 1].attributes.deaths == s[i - 1].attributes.deaths;
      var newDeaths := if i > 0 then a[i].attributes.deaths - a[i - 1].attributes.deaths else 0;
      a[i] := SetNewDeaths(a[i], newDeaths);
      i := i + 1;
    }
    assert a[..] == DeriveNewDeaths(s);
  }
}
