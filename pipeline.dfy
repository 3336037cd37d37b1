/**
 The per-contour loop of one upload: every contour is classified, its
 category is counted, and a label and an outline are drawn for it, in the
 order the contours were found. The vision library's measurements of a
 contour (vertex count of the approximated polygon, bounding-box size,
 centroid, grey level at the centroid) are the inputs; the font's text
 measurement is the parameter `measure`.
 */
module Pipeline {
  import opened Classifier
  import opened Annotation
  import opened Counts

  /** What the vision library reports about one contour. */
  datatype ContourInfo = ContourInfo(
    vertices: nat,      // vertex count of the approximated polygon
    w: int, h: int,     // bounding-box width and height
    cx: int, cy: int,   // centroid, already truncated to pixels
    brightness: Byte)   // grey level of the pixel at the centroid

  /** One drawing operation on the output image. */
  datatype DrawOp =
    | PutText(text: string, origin: Point, colour: Colour)
    | DrawOutline(contour: nat, colour: Colour)

  /** The contour can be classified: the four-vertex branch divides by its height. */
  predicate Measurable(c: ContourInfo)
  {
    c.vertices == 4 ==> c.h > 0
  }

  predicate AllMeasurable(cs: seq<ContourInfo>)
  {
    forall i :: 0 <= i < |cs| ==> Measurable(cs[i])
  }

  function ShapeOf(c: ContourInfo): (s: Shape)
    requires Measurable(c)
  {
    Classify(c.vertices, c.w, c.h)
  }

  /** The two drawing operations for contour number i: its label, then its green outline. */
  function ContourOps(c: ContourInfo, i: nat, measure: string -> TextSize): (ops: seq<DrawOp>)
    requires Measurable(c)
    ensures |ops| == 2
  {
    var text := LabelText(ShapeOf(c));
    [ PutText(text, LabelOrigin(c.cx, c.cy, measure(text)), TextColour(c.brightness)),
      DrawOutline(i, Green) ]
  }

  /**
   What the two operations of one contour mean: the label text pairs with
   the category counted for the contour, its colour is black exactly on a
   background brighter than the threshold, it is centred horizontally on the
   centroid, and the outline that follows is green.
   */
  lemma ContourOpsMeaning(c: ContourInfo, i: nat, measure: string -> TextSize)
    requires Measurable(c)
    ensures ContourOps(c, i, measure)[0].PutText?
    ensures Corresponds(ContourOps(c, i, measure)[0].text, CategoryName(ShapeOf(c)))
    ensures ContourOps(c, i, measure)[0].colour == Black <==> c.brightness > BrightnessThreshold
    ensures ContourOps(c, i, measure)[0].colour == White <==> c.brightness <= BrightnessThreshold
    ensures var op := ContourOps(c, i, measure)[0];
            2 * c.cx <= 2 * op.origin.x + measure(op.text).width <= 2 * c.cx + 1
    ensures ContourOps(c, i, measure)[1] == DrawOutline(i, Green)
  {
  }

  /** The table after counting every contour of cs, starting from t. */
  function Tally(t: seq<Entry>, cs: seq<ContourInfo>): (r: seq<Entry>)
    requires AllMeasurable(cs)
    ensures |r| == |t|
  {
    if cs == [] then t
    else Bumped(Tally(t, cs[..|cs| - 1]), CategoryName(ShapeOf(cs[|cs| - 1])))
  }

  /** All drawing operations for the contours of cs, in order. */
  function DrawLog(cs: seq<ContourInfo>, measure: string -> TextSize): (log: seq<DrawOp>)
    requires AllMeasurable(cs)
    ensures |log| == 2 * |cs|
  {
    if cs == [] then []
    else DrawLog(cs[..|cs| - 1], measure) + ContourOps(cs[|cs| - 1], |cs| - 1, measure)
  }

  /** How many contours of cs are of category s, an independent count. */
  function CountOf(cs: seq<ContourInfo>, s: Shape): (n: nat)
    requires AllMeasurable(cs)
    ensures n <= |cs|
  {
    if cs == [] then 0
    else CountOf(cs[..|cs| - 1], s) + (if ShapeOf(cs[|cs| - 1]) == s then 1 else 0)
  }

  /**
   After counting, the record of every category holds the number of
   contours of that category; names and order are those of the initial table.
   */
  lemma {:induction false} TallyPerCategory(cs: seq<ContourInfo>)
    requires AllMeasurable(cs)
    ensures |Tally(Initial(), cs)| == |Order|
    ensures forall k :: 0 <= k < |Order| ==>
      Tally(Initial(), cs)[k] == Entry(CategoryName(Order[k]), CountOf(cs, Order[k]))
  {
    if cs != [] {
      var init := cs[..|cs| - 1];
      var last := ShapeOf(cs[|cs| - 1]);
      var before := Tally(Initial(), init);
      TallyPerCategory(init);
      TallyWellFormed(init);
      BumpedCategoryAt(before, last);
      var after := before[Index(last) := before[Index(last)].(count := before[Index(last)].count + 1)];
      assert Tally(Initial(), cs) == after;
      forall k | 0 <= k < |Order|
        ensures after[k] == Entry(CategoryName(Order[k]), CountOf(cs, Order[k]))
      {
        CountOfLast(cs, Order[k]);
        if k == Index(last) {
          assert after[k] == before[k].(count := before[k].count + 1);
        } else {
          assert Order[k] != last && after[k] == before[k];
        }
      }
    }
  }

  /** Unfolding CountOf once: the last contour adds one to its own category only. */
  lemma CountOfLast(cs: seq<ContourInfo>, s: Shape)
    requires AllMeasurable(cs) && cs != []
    ensures AllMeasurable(cs[..|cs| - 1])
    ensures CountOf(cs, s) == CountOf(cs[..|cs| - 1], s) + (if ShapeOf(cs[|cs| - 1]) == s then 1 else 0)
  {
  }

  /** Counting keeps the table well formed and adds one to the sum per contour. */
  lemma {:induction false} TallyWellFormed(cs: seq<ContourInfo>)
    requires AllMeasurable(cs)
    ensures WellFormed(Tally(Initial(), cs))
    ensures Sum(Tally(Initial(), cs)) == |cs|
  {
    if cs == [] {
      assert Sum(Initial()) == 0;
    } else {
      var init := cs[..|cs| - 1];
      TallyWellFormed(init);
      BumpedCategory(Tally(Initial(), init), ShapeOf(cs[|cs| - 1]));
    }
  }

  /** Counts never decrease: counting a longer prefix never lowers any record. */
  lemma {:induction false} CountOfMonotone(cs: seq<ContourInfo>, i: nat, s: Shape)
    requires AllMeasurable(cs) && i <= |cs|
    ensures CountOf(cs[..i], s) <= CountOf(cs, s)
  {
    if i < |cs| {
      assert cs[..|cs| - 1][..i] == cs[..i];
      CountOfMonotone(cs[..|cs| - 1], i, s);
    } else {
      assert cs[..i] == cs;
    }
  }

  /** The table after a prefix of the contours never holds a larger count than the final table. */
  lemma TallyMonotone(cs: seq<ContourInfo>, i: nat)
    requires AllMeasurable(cs) && i <= |cs|
    ensures |Tally(Initial(), cs[..i])| == |Tally(Initial(), cs)| == |Order|
    ensures forall k :: 0 <= k < |Order| ==>
      Tally(Initial(), cs[..i])[k].count <= Tally(Initial(), cs)[k].count
  {
    assert AllMeasurable(cs[..i]) by {
      forall j | 0 <= j < i ensures Measurable(cs[..i][j]) {
        assert cs[..i][j] == cs[j];
      }
    }
    TallyPerCategory(cs[..i]);
    TallyPerCategory(cs);
    forall k | 0 <= k < |Order| ensures CountOf(cs[..i], Order[k]) <= CountOf(cs, Order[k]) {
      CountOfMonotone(cs, i, Order[k]);
    }
  }

  /** The counts of all categories add up to the number of contours. */
  lemma {:induction false} CountOfTotal(cs: seq<ContourInfo>)
    requires AllMeasurable(cs)
    ensures CountOf(cs, Triangle) + CountOf(cs, Square) + CountOf(cs, Rectangle)
          + CountOf(cs, Pentagon) + CountOf(cs, Circle) == |cs|
  {
    if cs != [] {
      CountOfTotal(cs[..|cs| - 1]);
    }
  }

  /**
   The drawing log holds two operations per contour, in contour order: the
   label of contour i, then its outline.
   */
  lemma {:induction false} DrawLogOrder(cs: seq<ContourInfo>, measure: string -> TextSize, i: nat)
    requires AllMeasurable(cs) && i < |cs|
    ensures DrawLog(cs, measure)[2 * i .. 2 * i + 2] == ContourOps(cs[i], i, measure)
  {
    var init := cs[..|cs| - 1];
    if i < |cs| - 1 {
      DrawLogOrder(init, measure, i);
      assert init[i] == cs[i];
    } else if |cs| > 1 {
      DrawLogOrder(init, measure, 0);
    }
  }

  /** Every label drawn names the category that was counted for the same contour. */
  lemma LabelMatchesTally(cs: seq<ContourInfo>, measure: string -> TextSize, i: nat)
    requires AllMeasurable(cs) && i < |cs|
    ensures DrawLog(cs, measure)[2 * i].PutText?
    ensures Corresponds(DrawLog(cs, measure)[2 * i].text, CategoryName(ShapeOf(cs[i])))
  {
    DrawLogOrder(cs, measure, i);
    assert DrawLog(cs, measure)[2 * i] == DrawLog(cs, measure)[2 * i .. 2 * i + 2][0];
    LabelMatchesCategory(ShapeOf(cs[i]));
  }

  /**
   The contour loop of one upload: a fresh table, then for every contour
   classify, increment its category, pick the label colour and origin, and
   draw label and outline. Returns the final table and the drawing log.
   */
  method ProcessContours(contours: seq<ContourInfo>, measure: string -> TextSize)
    returns (shapes: seq<Entry>, log: seq<DrawOp>)
    requires AllMeasurable(contours)
    ensures shapes == Tally(Initial(), contours)
    ensures log == DrawLog(contours, measure)
    ensures WellFormed(shapes) && Sum(shapes) == |contours|
    ensures forall k :: 0 <= k < |Order| ==> shapes[k].count == CountOf(contours, Order[k])
  {
    var table := new ShapeTable();
    log := [];
    var i := 0;
    while i < |contours|
      invariant 0 <= i <= |contours|
      invariant table.shapes[..] == Tally(Initial(), contours[..i])
      invariant log == DrawLog(contours[..i], measure)
    {
      var c := contours[i];
      var shape := Classify(c.vertices, c.w, c.h);
      table.Increment(CategoryName(shape));
      var text := LabelText(shape);
      var colour := TextColour(c.brightness);
      var origin := LabelOrigin(c.cx, c.cy, measure(text));
      log := log + [PutText(text, origin, colour), DrawOutline(i, Green)];
      ghost var done := contours[..i + 1];
      assert done[..i] == contours[..i] && done[i] == c;
      assert ContourOps(c, i, measure) == [PutText(text, origin, colour), DrawOutline(i, Green)];
      assert DrawLog(done, measure) == DrawLog(contours[..i], measure) + ContourOps(c, i, measure);
      assert Tally(Initial(), done) == Bumped(Tally(Initial(), contours[..i]), CategoryName(shape));
      i := i + 1;
    }
    assert contours[..i] == contours;
    shapes := table.shapes[..];
    TallyWellFormed(contours);
    TallyPerCategory(contours);
  }

  /** One triangle, one square and one circle, in that order. */
  const Scenario: seq<ContourInfo> := [ ContourInfo(3, 40, 30, 10, 10, 200),
                                        ContourInfo(4, 100, 100, 50, 50, 20),
                                        ContourInfo(8, 60, 60, 90, 90, 51) ]

  /** The scenario counts one triangle, one square and one circle. */
  lemma ScenarioTable()
    ensures AllMeasurable(Scenario)
    ensures Tally(Initial(), Scenario)
         == [ Entry("Triunghiuri", 1), Entry("Pătrate", 1), Entry("Dreptunghiuri", 0),
              Entry("Pentagoane", 0), Entry("Cercuri", 1) ]
  {
    var cs := Scenario;
    assert ShapeOf(cs[0]) == Triangle && ShapeOf(cs[1]) == Square && ShapeOf(cs[2]) == Circle;
    assert cs[..2] == [cs[0], cs[1]] && cs[..2][..1] == [cs[0]] && [cs[0]][..0] == [];
    forall s: Shape ensures CountOf(cs, s) == if s == Rectangle || s == Pentagon then 0 else 1 {
      assert CountOf([cs[0]], s) == if s == Triangle then 1 else 0;
      assert CountOf(cs[..2], s) == if s == Triangle || s == Square then 1 else 0;
    }
    TallyPerCategory(cs);
  }

  /** The scenario draws a label and an outline for each of its three shapes, in order. */
  lemma ScenarioLog(measure: string -> TextSize)
    ensures AllMeasurable(Scenario)
    ensures var log := DrawLog(Scenario, measure);
            && |log| == 6
            && log[0].PutText? && log[0].text == "Triunghi" && log[1] == DrawOutline(0, Green)
            && log[2].PutText? && log[2].text == "Patrat" && log[3] == DrawOutline(1, Green)
            && log[4].PutText? && log[4].text == "Cerc" && log[5] == DrawOutline(2, Green)
  {
    var cs := Scenario;
    assert ShapeOf(cs[0]) == Triangle && ShapeOf(cs[1]) == Square && ShapeOf(cs[2]) == Circle;
    var log := DrawLog(cs, measure);
    DrawLogOrder(cs, measure, 0);
    DrawLogOrder(cs, measure, 1);
    DrawLogOrder(cs, measure, 2);
    assert log[0] == log[0..2][0] && log[1] == log[0..2][1];
    assert log[2] == log[2..4][0] && log[3] == log[2..4][1];
    assert log[4] == log[4..6][0] && log[5] == log[4..6][1];
  }

  /**
   The end-to-end scenario: one triangle, one square and one circle give
   one count each, and three labelled, outlined regions in that order.
   */
  lemma ThreeShapes(measure: string -> TextSize)
    ensures AllMeasurable(Scenario)
    ensures Tally(Initial(), Scenario)
         == [ Entry("Triunghiuri", 1), Entry("Pătrate", 1), Entry("Dreptunghiuri", 0),
              Entry("Pentagoane", 0), Entry("Cercuri", 1) ]
    ensures var log := DrawLog(Scenario, measure);
            && |log| == 6
            && log[0].PutText? && log[0].text == "Triunghi" && log[1] == DrawOutline(0, Green)
            && log[2].PutText? && log[2].text == "Patrat" && log[3] == DrawOutline(1, Green)
            && log[4].PutText? && log[4].text == "Cerc" && log[5] == DrawOutline(2, Green)
  {
    ScenarioTable();
    ScenarioLog(measure);
  }
}
