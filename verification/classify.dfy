/** `mockClassify`: a classifier id selects a bias profile, and each category
    count is drawn uniformly from that profile's range. */
module Classify {
  import opened Wrappers
  import opened Counts
  import opened Oracle

  /** One count expression `Math.floor(Math.random() * width) + low`. */
  datatype Range = Range(width: nat, low: nat)

  /** The four count expressions of one `case` of the classifier switch. */
  datatype Profile = Profile(a: Range, b: Range, c: Range, d: Range)

  /** The four `Math.random()` values one known classifier consumes, in statement order. */
  datatype Draws = Draws(a: Random, b: Random, c: Random, d: Random)

  /** The `switch (classifierType)` table; an id no case matches has no profile. */
  function ProfileOf(id: string): Option<Profile>
  {
    if id == "knn-cosine" then
      Some(Profile(Range(25, 15), Range(20, 10), Range(15, 5), Range(10, 2)))
    else if id == "knn-cubic" then
      Some(Profile(Range(20, 8), Range(20, 8), Range(20, 8), Range(15, 5)))
    else if id == "naive-bayes" then
      Some(Profile(Range(15, 5), Range(15, 5), Range(25, 15), Range(20, 10)))
    else
      None
  }

  /** The inclusive interval `[lo, hi]` a range can produce. */
  function Lo(r: Range): nat { r.low }
  function Hi(r: Range): int { r.low + r.width - 1 }

  /** `Math.floor(u * width) + low` lies in the range's inclusive interval. */
  function Sample(r: Range, u: Random): (v: nat)
    requires r.width > 0
    ensures Lo(r) <= v <= Hi(r)
  {
    var f := (u * r.width as real).Floor;
    ScaleBelow(u, r.width as real);
    assert f as real <= u * r.width as real;
    assert f < r.width;
    f + r.low
  }

  /** Every value of the inclusive interval is drawn by some `Math.random()` value. */
  lemma SampleReaches(r: Range, v: int)
    requires r.width > 0
    requires Lo(r) <= v <= Hi(r)
    ensures exists u: Random :: Sample(r, u) == v
  {
    var q := (v - r.low) as real / r.width as real;
    assert q * r.width as real == (v - r.low) as real;
    var u: Random := q;
    assert Sample(r, u) == v;
  }

  /** Each value of the interval is drawn by exactly the `Math.random()` values in
      [(v - low) / width, (v - low + 1) / width), a slice of width 1 / width, so
      all values of the interval are equally likely. */
  lemma SampleChosenBySlice(r: Range, u: Random, v: int)
    requires r.width > 0
    ensures Sample(r, u) == v
        <==> (v - r.low) as real / r.width as real <= u < (v - r.low + 1) as real / r.width as real
  {
    var w := r.width as real;
    var f := (u * w).Floor;
    assert f as real <= u * w < f as real + 1.0;
    DivideByWidth((v - r.low) as real, w, u);
    DivideByWidth((v - r.low + 1) as real, w, u);
  }

  /** Comparing `u` with `a / w` is comparing `u * w` with `a`, for a positive `w`. */
  lemma DivideByWidth(a: real, w: real, u: real)
    requires w > 0.0
    ensures a / w <= u <==> a <= u * w
    ensures u < a / w <==> u * w < a
  {
    var q := a / w;
    assert q * w == a;
    assert (u - q) * w == u * w - a;
    if u - q >= 0.0 {
      assert (u - q) * w >= 0.0;
    } else {
      assert (u - q) * w < 0.0;
    }
  }

  /** The promise made for `mockClassify`'s resolved value: the three known ids
      give counts in their inclusive bias ranges, and every other id resolves
      to all zeros without an error. */
  function MockClassify(id: string, ds: Draws): (counts: Counts)
    ensures id == "knn-cosine" ==>
      15 <= counts.a <= 39 && 10 <= counts.b <= 29 && 5 <= counts.c <= 19 && 2 <= counts.d <= 11
    ensures id == "knn-cubic" ==>
      8 <= counts.a <= 27 && 8 <= counts.b <= 27 && 8 <= counts.c <= 27 && 5 <= counts.d <= 19
    ensures id == "naive-bayes" ==>
      5 <= counts.a <= 19 && 5 <= counts.b <= 19 && 15 <= counts.c <= 39 && 10 <= counts.d <= 29
    ensures id != "knn-cosine" && id != "knn-cubic" && id != "naive-bayes" ==> counts == Zero
  {
    match ProfileOf(id)
    case None => Zero
    case Some(p) =>
      Counts(Sample(p.a, ds.a), Sample(p.b, ds.b), Sample(p.c, ds.c), Sample(p.d, ds.d))
  }

  /** The counts a profile can produce: each within its inclusive interval. */
  predicate InProfile(p: Profile, counts: Counts)
  {
    && Lo(p.a) <= counts.a <= Hi(p.a)
    && Lo(p.b) <= counts.b <= Hi(p.b)
    && Lo(p.c) <= counts.c <= Hi(p.c)
    && Lo(p.d) <= counts.d <= Hi(p.d)
  }

  /** The ranges `MockClassify` promises are tight: for each known id, every
      combination of counts in its stated intervals (the minima and maxima
      included) is the result of some four `Math.random()` values. */
  lemma MockClassifyReachesProfile(id: string, counts: Counts)
    requires
      || (id == "knn-cosine"
          && 15 <= counts.a <= 39 && 10 <= counts.b <= 29 && 5 <= counts.c <= 19 && 2 <= counts.d <= 11)
      || (id == "knn-cubic"
          && 8 <= counts.a <= 27 && 8 <= counts.b <= 27 && 8 <= counts.c <= 27 && 5 <= counts.d <= 19)
      || (id == "naive-bayes"
          && 5 <= counts.a <= 19 && 5 <= counts.b <= 19 && 15 <= counts.c <= 39 && 10 <= counts.d <= 29)
    ensures exists ds :: MockClassify(id, ds) == counts
  {
    assert ProfileOf(id).Some?;
    var p := ProfileOf(id).value;
    assert InProfile(p, counts);
    SampleReaches(p.a, counts.a);
    SampleReaches(p.b, counts.b);
    SampleReaches(p.c, counts.c);
    SampleReaches(p.d, counts.d);
    var ua: Random :| Sample(p.a, ua) == counts.a;
    var ub: Random :| Sample(p.b, ub) == counts.b;
    var uc: Random :| Sample(p.c, uc) == counts.c;
    var ud: Random :| Sample(p.d, ud) == counts.d;
    var ds := Draws(ua, ub, uc, ud);
    assert MockClassify(id, ds) == counts;
  }
}
