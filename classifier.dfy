/**
 Shape classification of one approximated contour: the vertex count of the
 polygon picks the category, and for four vertices the aspect ratio of the
 polygon's bounding box separates squares from rectangles.
 */
module Classifier {

  /** The five categories, in the order of the count table. */
  datatype Shape = Triangle | Square | Rectangle | Pentagon | Circle

  /** The order in which the count table lists the categories. */
  const Order: seq<Shape> := [Triangle, Square, Rectangle, Pentagon, Circle]

  /** Position of a category in the count table. */
  function Index(s: Shape): (k: nat)
    ensures k < |Order| && Order[k] == s
  {
    match s
    case Triangle => 0
    case Square => 1
    case Rectangle => 2
    case Pentagon => 3
    case Circle => 4
  }

  /** The name under which a category is counted (the record's "name"). */
  function CategoryName(s: Shape): (n: string)
  {
    match s
    case Triangle => "Triunghiuri"
    case Square => "Pătrate"
    case Rectangle => "Dreptunghiuri"
    case Pentagon => "Pentagoane"
    case Circle => "Cercuri"
  }

  /** The text drawn next to a shape of this category; it is the label of its own category's name. */
  function LabelText(s: Shape): (t: string)
    ensures Corresponds(t, CategoryName(s))
  {
    match s
    case Triangle => "Triunghi"
    case Square => "Patrat"
    case Rectangle => "Dreptunghi"
    case Pentagon => "Pentagon"
    case Circle => "Cerc"
  }

  /** The label-text/category-name pairs the classification branch uses together. */
  predicate Corresponds(text: string, name: string)
  {
    || (text == "Triunghi" && name == "Triunghiuri")
    || (text == "Patrat" && name == "Pătrate")
    || (text == "Dreptunghi" && name == "Dreptunghiuri")
    || (text == "Pentagon" && name == "Pentagoane")
    || (text == "Cerc" && name == "Cercuri")
  }

  /** The exact ratio w / h, as the source's floating-point division means it. */
  function Ratio(w: int, h: int): (r: real)
    requires h > 0
    ensures r * (h as real) == w as real
  {
    (w as real) / (h as real)
  }

  /**
   The aspect-ratio test 0.9 < w/h < 1.1, cross-multiplied by 10*h so that
   it stays in integers. It agrees with the exact ratio test.
   */
  function IsSquareRatio(w: int, h: int): (b: bool)
    requires h > 0
    ensures b <==> 0.9 < Ratio(w, h) < 1.1
  {
    RatioBounds(w, h);
    9 * h < 10 * w < 11 * h
  }

  /** Multiplying out the two bounds of the ratio test. */
  lemma RatioBounds(w: int, h: int)
    requires h > 0
    ensures 0.9 < Ratio(w, h) <==> 9 * h < 10 * w
    ensures Ratio(w, h) < 1.1 <==> 10 * w < 11 * h
  {
    var wr, hr := w as real, h as real;
    BelowQuotient(0.9, wr, hr);
    AboveQuotient(1.1, wr, hr);
    assert 0.9 * hr < wr <==> (9 * h) as real < (10 * w) as real;
    assert wr < 1.1 * hr <==> (10 * w) as real < (11 * h) as real;
  }

  /** A constant lies below a quotient exactly when it lies below after multiplying out. */
  lemma BelowQuotient(c: real, x: real, a: real)
    requires a > 0.0
    ensures c < x / a <==> c * a < x
  {
    var q := x / a;
    assert q * a == x;
    ScaleStrict(c, q, a);
  }

  /** A quotient lies below a constant exactly when it does after multiplying out. */
  lemma AboveQuotient(c: real, x: real, a: real)
    requires a > 0.0
    ensures x / a < c <==> x < c * a
  {
    var q := x / a;
    assert q * a == x;
    ScaleStrict(q, c, a);
  }

  /** Scaling both sides by a positive factor keeps a strict comparison. */
  lemma ScaleStrict(x: real, y: real, a: real)
    requires a > 0.0
    ensures x < y <==> x * a < y * a
  {
    assert (y - x) * a == y * a - x * a;
    if x < y {
      assert (y - x) * a > 0.0;
    } else {
      assert (x - y) * a >= 0.0;
    }
  }

  /**
   The classification branch: 3 vertices is a triangle, 4 a square or a
   rectangle by the aspect ratio, 5 a pentagon, and every other count
   (including 0, 1, 2 and 6 or more) a circle. The source divides by h only
   when there are four vertices, so only that case needs h > 0.
   */
  function Classify(vertices: nat, w: int, h: int): (s: Shape)
    requires vertices == 4 ==> h > 0
    ensures s == Triangle <==> vertices == 3
    ensures s == Square <==> vertices == 4 && 0.9 < Ratio(w, h) < 1.1
    ensures s == Rectangle <==> vertices == 4 && !(0.9 < Ratio(w, h) < 1.1)
    ensures s == Pentagon <==> vertices == 5
    ensures s == Circle <==> vertices != 3 && vertices != 4 && vertices != 5
  {
    if vertices == 3 then Triangle
    else if vertices == 4 then (if IsSquareRatio(w, h) then Square else Rectangle)
    else if vertices == 5 then Pentagon
    else Circle
  }

  /** Each category has its own name and its own label, and no two categories share one. */
  lemma NamesDistinct(s: Shape, t: Shape)
    ensures CategoryName(s) == CategoryName(t) <==> s == t
    ensures LabelText(s) == LabelText(t) <==> s == t
  {
  }

  /** The quantified form of NamesDistinct for category names. */
  lemma CategoryNamesInjective()
    ensures forall s: Shape, t: Shape :: CategoryName(s) == CategoryName(t) ==> s == t
  {
    forall s: Shape, t: Shape ensures CategoryName(s) == CategoryName(t) ==> s == t {
      NamesDistinct(s, t);
    }
  }

  /** The label drawn and the category counted always belong together. */
  lemma LabelMatchesCategory(s: Shape)
    ensures Corresponds(LabelText(s), CategoryName(s))
    ensures forall n: string :: Corresponds(LabelText(s), n) ==> n == CategoryName(s)
    ensures forall l: string :: Corresponds(l, CategoryName(s)) ==> l == LabelText(s)
  {
  }

  /** The boundary cases of the square test: the bounds are strict. */
  lemma SquareBoundaries()
    ensures Classify(4, 100, 100) == Square
    ensures Classify(4, 90, 100) == Rectangle
    ensures Classify(4, 110, 100) == Rectangle
    ensures Classify(4, 100, 150) == Rectangle
    ensures Classify(4, 91, 100) == Square && Classify(4, 109, 100) == Square
  {
  }

  /** Only the four-vertex case looks at the bounding box. */
  lemma BoxOnlyMattersForFour(vertices: nat, w: int, h: int, w': int, h': int)
    requires vertices != 4
    ensures Classify(vertices, w, h) == Classify(vertices, w', h')
  {
  }
}
