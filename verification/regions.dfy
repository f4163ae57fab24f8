/** `generateCellRegions`: turns a counts object into a flat list of markers,
    `counts[category]` markers per category, each with a random position,
    size, shape, rotation and aspect ratio. */
module Regions {
  import opened Counts
  import opened Oracle

  /** The `shapes` array, in its declared order. */
  datatype Shape = Circle | Rect | Ellipse | Polygon | Star

  const Shapes: seq<Shape> := [Circle, Rect, Ellipse, Polygon, Star]

  /** Distance kept from each image edge. */
  const Margin: real := 40.0

  /** The six `Math.random()` values one marker consumes, in statement order. */
  datatype RegionDraw = RegionDraw(x: Random, y: Random, size: Random, shape: Random, rotation: Random, aspect: Random)

  /** A stream of marker draws long enough for `n` markers. */
  predicate DrawStream(draws: seq<RegionDraw>, n: nat)
  {
    n <= |draws|
  }

  /** One marker. Positions are in natural-image pixels; `rotation` is kept as a
      fraction of a full turn (the source's angle is `rotation * 2 * Math.PI`). */
  datatype Region = Region(
    category: Category,
    x: real,
    y: real,
    size: real,
    shape: Shape,
    rotation: real,
    aspectRatio: real)

  /** `u * d` for a `Math.random()` value u lies between 0 and d. */
  lemma ScaleBetween(u: Random, d: real)
    ensures d >= 0.0 ==> 0.0 <= u * d <= d
    ensures d > 0.0 ==> u * d < d
    ensures d < 0.0 ==> d < u * d <= 0.0
  {
    if d > 0.0 {
      ScaleBelow(u, d);
    } else if d < 0.0 {
      ScaleBelow(u, -d);
      assert u * -d == -(u * d);
    }
  }

  /** `Math.random() * (dim - 2 * margin) + margin`: inside the margins when the
      image is wider than both margins, on the midpoint when it is exactly as
      wide, and between `dim - margin` and `margin` when it is narrower. */
  function Place(u: Random, dim: real): (v: real)
    ensures dim >= 2.0 * Margin ==> Margin <= v <= dim - Margin
    ensures dim > 2.0 * Margin ==> v < dim - Margin
    ensures dim < 2.0 * Margin ==> dim - Margin < v <= Margin
  {
    var span := dim - 2.0 * Margin;
    ScaleBetween(u, span);
    assert span < 0.0 ==> span < u * span <= 0.0;
    u * span + Margin
  }

  /** `Math.floor(Math.random() * shapes.length)`: the index i chosen exactly when
      u falls in [i / 5, (i + 1) / 5), so each shape is equally likely. */
  function ShapeIndex(u: Random): (i: nat)
    ensures i < |Shapes|
    ensures i as real <= u * |Shapes| as real < (i + 1) as real
  {
    var f := (u * |Shapes| as real).Floor;
    ScaleBelow(u, |Shapes| as real);
    assert f as real <= u * |Shapes| as real;
    f
  }

  /** One iteration of the inner loop: the marker built for `category` from its draws. */
  function MakeRegion(category: Category, width: real, height: real, d: RegionDraw): (r: Region)
    ensures r.category == category
    ensures width > 2.0 * Margin ==> Margin <= r.x < width - Margin
    ensures height > 2.0 * Margin ==> Margin <= r.y < height - Margin
    ensures 25.0 <= r.size < 70.0
    ensures 0.7 <= r.aspectRatio < 1.3
    ensures 0.0 <= r.rotation < 1.0
  {
    ScaleBelow(d.size, 45.0);
    ScaleBelow(d.aspect, 0.6);
    Region(
      category,
      Place(d.x, width),
      Place(d.y, height),
      d.size * 45.0 + 25.0,
      Shapes[ShapeIndex(d.shape)],
      d.rotation,
      0.7 + d.aspect * 0.6)
  }

  /** Every shape is chosen by exactly one fifth of the unit interval. */
  lemma ShapeChosenByFifth(category: Category, width: real, height: real, d: RegionDraw, i: nat)
    requires i < |Shapes|
    ensures MakeRegion(category, width, height, d).shape == Shapes[i]
        <==> i as real / 5.0 <= d.shape < (i + 1) as real / 5.0
  {
    var j := ShapeIndex(d.shape);
    assert MakeRegion(category, width, height, d).shape == Shapes[j];
    assert Shapes[i] == Shapes[j] <==> i == j;
    assert i == j <==> i as real <= d.shape * 5.0 < (i + 1) as real;
  }

  /** `n` copies of one category. */
  function Repeat(cat: Category, n: nat): (s: seq<Category>)
    ensures |s| == n
    ensures forall i :: 0 <= i < n ==> s[i] == cat
  {
    seq(n, _ => cat)
  }

  /** The category of each marker, in emission order: the outer `forEach` over
      the keys, the inner loop `count` times. */
  function Layout(counts: Counts): seq<Category>
  {
    Repeat(A, counts.a) + Repeat(B, counts.b) + Repeat(C, counts.c) + Repeat(D, counts.d)
  }

  lemma LayoutLength(counts: Counts)
    ensures |Layout(counts)| == Total(counts)
  {
  }

  /** Position `j` of the layout holds `cat` exactly when `j` lies in the block
      that starts at `cat`'s offset and is `counts[cat]` long. */
  lemma LayoutSpan(counts: Counts, j: int, cat: Category)
    requires 0 <= j < Total(counts)
    ensures |Layout(counts)| == Total(counts)
    ensures Layout(counts)[j] == cat
        <==> Offset(counts, cat) <= j < Offset(counts, cat) + Get(counts, cat)
  {
    var s := Layout(counts);
    var a, b, c := counts.a, counts.b, counts.c;
    assert Offset(counts, B) == a;
    assert Offset(counts, C) == a + b;
    assert Offset(counts, D) == a + b + c;
    if j < a {
      assert s[j] == A;
    } else if j < a + b {
      assert s[j] == B;
    } else if j < a + b + c {
      assert s[j] == C;
    } else {
      assert s[j] == D;
    }
  }

  /** Number of occurrences of `cat` in `cs`. */
  function Count(cs: seq<Category>, cat: Category): nat
  {
    if |cs| == 0 then 0 else (if cs[0] == cat then 1 else 0) + Count(cs[1..], cat)
  }

  lemma {:induction false} CountAppend(s: seq<Category>, t: seq<Category>, cat: Category)
    ensures Count(s + t, cat) == Count(s, cat) + Count(t, cat)
  {
    if |s| == 0 {
      assert s + t == t;
    } else {
      assert (s + t)[1..] == s[1..] + t;
      CountAppend(s[1..], t, cat);
    }
  }

  lemma {:induction false} CountRepeat(c: Category, n: nat, cat: Category)
    ensures Count(Repeat(c, n), cat) == if c == cat then n else 0
  {
    if n > 0 {
      assert Repeat(c, n)[1..] == Repeat(c, n - 1);
      CountRepeat(c, n - 1, cat);
    }
  }

  /** The layout holds each category exactly as often as the counts say. */
  lemma LayoutCounts(counts: Counts, cat: Category)
    ensures Count(Layout(counts), cat) == Get(counts, cat)
  {
    var ra, rb, rc, rd := Repeat(A, counts.a), Repeat(B, counts.b), Repeat(C, counts.c), Repeat(D, counts.d);
    CountAppend(ra, rb, cat);
    CountAppend(ra + rb, rc, cat);
    CountAppend(ra + rb + rc, rd, cat);
    CountRepeat(A, counts.a, cat);
    CountRepeat(B, counts.b, cat);
    CountRepeat(C, counts.c, cat);
    CountRepeat(D, counts.d, cat);
  }

  /** The list `generateCellRegions` returns: marker `j` has the `j`-th category
      of the layout and is built from the `j`-th draw. */
  function GenerateRegions(width: real, height: real, counts: Counts, draws: seq<RegionDraw>): (rs: seq<Region>)
    requires DrawStream(draws, Total(counts))
    ensures |rs| == Total(counts)
    ensures forall j :: 0 <= j < |rs| ==> rs[j].category == Layout(counts)[j]
  {
    LayoutLength(counts);
    seq(Total(counts), j requires 0 <= j < Total(counts) => MakeRegion(Layout(counts)[j], width, height, draws[j]))
  }

  /** The categories of a marker list, in order. */
  function CategoriesOf(rs: seq<Region>): (cs: seq<Category>)
    ensures |cs| == |rs|
    ensures forall j :: 0 <= j < |rs| ==> cs[j] == rs[j].category
  {
    seq(|rs|, j requires 0 <= j < |rs| => rs[j].category)
  }

  /** Exactly `counts[cat]` markers of each category, so `counts.A + ... + counts.D` in all. */
  lemma GenerateCountsPerCategory(width: real, height: real, counts: Counts, draws: seq<RegionDraw>, cat: Category)
    requires DrawStream(draws, Total(counts))
    ensures Count(CategoriesOf(GenerateRegions(width, height, counts, draws)), cat) == Get(counts, cat)
  {
    var rs := GenerateRegions(width, height, counts, draws);
    assert CategoriesOf(rs) == Layout(counts);
    LayoutCounts(counts, cat);
  }

  /** Markers are grouped by category in key order, and the markers of a
      category fill the block starting at its offset, each built from the draw
      of the same index (so in loop-index order). */
  lemma GenerateGroupedInOrder(width: real, height: real, counts: Counts, draws: seq<RegionDraw>)
    requires DrawStream(draws, Total(counts))
    ensures var rs := GenerateRegions(width, height, counts, draws);
      forall i, j :: 0 <= i < j < |rs| ==> Rank(rs[i].category) <= Rank(rs[j].category)
    ensures var rs := GenerateRegions(width, height, counts, draws);
      forall cat, j :: Offset(counts, cat) <= j < Offset(counts, cat) + Get(counts, cat) ==>
        rs[j] == MakeRegion(cat, width, height, draws[j])
  {
    var rs := GenerateRegions(width, height, counts, draws);
    forall i, j | 0 <= i < j < |rs|
      ensures Rank(rs[i].category) <= Rank(rs[j].category)
    {
      var ci, cj := rs[i].category, rs[j].category;
      LayoutSpan(counts, i, ci);
      LayoutSpan(counts, j, cj);
      if Rank(cj) < Rank(ci) {
        OffsetsIncrease(counts, cj, ci);
      }
    }
    forall cat, j | Offset(counts, cat) <= j < Offset(counts, cat) + Get(counts, cat)
      ensures rs[j] == MakeRegion(cat, width, height, draws[j])
    {
      LayoutSpan(counts, j, cat);
    }
  }

  /** A later category's block starts no earlier than an earlier one's ends. */
  lemma OffsetsIncrease(counts: Counts, c1: Category, c2: Category)
    requires Rank(c1) < Rank(c2)
    ensures Offset(counts, c1) + Get(counts, c1) <= Offset(counts, c2)
  {
  }

  /** Every marker stays inside the margins of an image larger than both
      margins, and its size, aspect ratio and rotation lie in their ranges. */
  lemma GenerateWithinBounds(width: real, height: real, counts: Counts, draws: seq<RegionDraw>)
    requires DrawStream(draws, Total(counts))
    ensures forall r :: r in GenerateRegions(width, height, counts, draws) ==>
      && (width > 2.0 * Margin ==> Margin <= r.x < width - Margin)
      && (height > 2.0 * Margin ==> Margin <= r.y < height - Margin)
      && 25.0 <= r.size < 70.0
      && 0.7 <= r.aspectRatio < 1.3
      && 0.0 <= r.rotation < 1.0
  {
  }

  /** The nested loops of `generateCellRegions`: for each key in order, push
      `counts[key]` markers, each from the next draws. */
  method GenerateCellRegions(width: real, height: real, counts: Counts, draws: seq<RegionDraw>)
    returns (regions: seq<Region>)
    requires DrawStream(draws, Total(counts))
    ensures regions == GenerateRegions(width, height, counts, draws)
  {
    ghost var expected := GenerateRegions(width, height, counts, draws);
    regions := [];
    var k := 0;
    while k < |Categories|
      invariant k <= |Categories|
      invariant regions == expected[..Before(counts, k)]
    {
      var cat := Categories[k];
      assert Rank(cat) == k;
      var count := Get(counts, cat);
      var i := 0;
      while i < count
        invariant i <= count
        invariant regions == expected[..Offset(counts, cat) + i]
      {
        var j := |regions|;
        LayoutSpan(counts, j, cat);
        regions := regions + [MakeRegion(cat, width, height, draws[j])];
        i := i + 1;
      }
      k := k + 1;
    }
  }
}
