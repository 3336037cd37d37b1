# Shape counter: verified model of the per-contour decision layer

The system takes an uploaded image. It finds the outer contours of the shapes in it and approximates each contour by a polygon. It then counts the shapes in five categories: Triunghiuri (triangles), Pătrate (squares), Dreptunghiuri (rectangles), Pentagoane (pentagons) and Cercuri (circles, the catch-all). Each shape gets a label and an outline drawn on the image.

This project models the part of the upload handler that makes decisions about each contour:

- **Classifier** (`classifier.dfy`): the vertex-count branch. For four vertices it also applies the strict aspect-ratio test `0.9 < w/h < 1.1`. It also holds the category names and label texts.
- **Annotation** (`annotation.dfy`): the label colour and the label origin. Black is used on a background brighter than 50, white otherwise. The origin is `(cx - tw // 2, cy - th // 2 + 30)`.
- **Counts** (`counts.dfy`): the five-record count table as a class over an array. `Increment` scans the table linearly, increments the first record with a matching name, and stops.
- **Pipeline** (`pipeline.dfy`): the loop over the contours. For each contour it classifies, increments, picks the colour and origin, and draws. All drawing goes into an ordered log of draw operations.

Modelling decisions:

- The ratio test `0.9 < w / float(h) < 1.1` is written in integers as `9*h < 10*w < 11*h`. `IsSquareRatio` is proved equal to the exact real-number comparison.
  - The model assumes that, for pixel-sized `w` and `h`, double-precision rounding never changes the outcome. This holds because a ratio that is not exactly 0.9 or 1.1 differs from those bounds by at least `1/(10h)`, which is far larger than the rounding error. A ratio that is exactly 0.9 or 1.1 rounds to the same double as the literal.
- Python's `n // 2` is Dafny's `n / 2`. With a positive divisor, Euclidean division and floor division agree. `FloorHalf` states the floor property for every integer, including negative ones.
- The vision library's outputs are inputs to the model:
  - vertex count, bounding-box `w` and `h`, centroid `cx` and `cy`, and the grey level at the centroid come in per contour as `ContourInfo`;
  - the font's text measurement is a parameter `measure: string -> TextSize`.
- The code divides by `h` only in the four-vertex branch, with no guard for `h == 0`. `Classify` therefore requires `vertices == 4 ==> h > 0`, and `ProcessContours` requires this of every contour.
- `increment` silently ignores a name that is not in the table. `BumpedAbsent` proves that such a call changes nothing.
- The table is an ordered list of five records, as in the code, not a map keyed by category.
- `cv2.putText` takes its origin as the left end of the text's baseline. The model states the origin arithmetic exactly and the horizontal centring it gives. It does not claim where the text's vertical centre lands.

## Model

| member | source | states |
|---|---|---|
| Classifier.Classify | app-fallback-openAI.py:61-78 | Shape categories by vertex count, in both directions. 3 vertices is Triangle and 5 is Pentagon. 4 vertices is Square exactly when 0.9 < w/h < 1.1 (exact real ratio), otherwise Rectangle. Every other count is Circle. |
| Classifier.CategoryName | app-fallback-openAI.py:62-78 | The name each branch increments. NamesDistinct and CategoryNamesInjective prove the five names pairwise distinct, so each names exactly one record. |
| Classifier.LabelText | app-fallback-openAI.py:63-78 | The label each branch draws. It always pairs with the category name counted in the same branch. NamesDistinct proves the five labels pairwise distinct. |
| Classifier.IsSquareRatio | app-fallback-openAI.py:65-67 | The integer test 9h < 10w < 11h holds exactly when the real ratio w/h lies strictly between 0.9 and 1.1. |
| Classifier.RatioBounds | app-fallback-openAI.py:66-67 | Each bound of the ratio test, multiplied out by h > 0, is the matching integer inequality. |
| Classifier.Index | app-fallback-openAI.py:46-52 | Every category has a position in the table order Triunghiuri, Pătrate, Dreptunghiuri, Pentagoane, Cercuri. |
| Classifier.NamesDistinct | app-fallback-openAI.py:46-78 | Two categories share a counted name, or a label text, only if they are the same category. |
| Classifier.CategoryNamesInjective | app-fallback-openAI.py:46-52 | The five record names are pairwise distinct. |
| Classifier.LabelMatchesCategory | app-fallback-openAI.py:61-78 | The label drawn and the name incremented form one of the five branch pairs (Triunghi/Triunghiuri, Patrat/Pătrate, Dreptunghi/Dreptunghiuri, Pentagon/Pentagoane, Cerc/Cercuri). Each determines the other. |
| Classifier.SquareBoundaries | app-fallback-openAI.py:65-72 | The bounds are strict: 100×100 is a square, 90×100 and 110×100 are rectangles, 100×150 is a rectangle, 91×100 and 109×100 are squares. |
| Classifier.BoxOnlyMattersForFour | app-fallback-openAI.py:61-78 | For any vertex count other than 4, the bounding box does not affect the category. |
| Annotation.TextColour | app-fallback-openAI.py:84-87 | The label is black exactly when brightness > 50 and white exactly when brightness <= 50. |
| Annotation.ColourThreshold | app-fallback-openAI.py:84-87 | 50 gives white and 51 gives black. 0 gives white and 255 gives black. |
| Annotation.ColourMonotone | app-fallback-openAI.py:84-87 | A brighter background never turns a black label white. |
| Annotation.FloorHalf | app-fallback-openAI.py:89-90 | `n // 2` is the floor of n/2 for every integer n: 2q <= n < 2q + 2. |
| Annotation.LabelOrigin | app-fallback-openAI.py:88-91 | x is the centroid's x minus half the text width, rounded down. y is the centroid's y minus half the text height, rounded down, plus 30. The renderer takes this point as the text's baseline origin, so the text is centred horizontally on the centroid to within half a pixel. |
| Annotation.LabelOriginUnique | app-fallback-openAI.py:88-91 | The centring property determines the origin uniquely. |
| Annotation.LabelOriginShift | app-fallback-openAI.py:88-91 | Moving the centroid moves the origin by the same amount. For an even text width, the text is exactly centred. |
| Counts.Initial | app-fallback-openAI.py:46-52 | The table starts as the five categories, in fixed order, all at count 0. |
| Counts.Bumped | app-fallback-openAI.py:53-57 | The functional form of `increment`. It keeps the table's length. BumpedFrame, BumpedFirstMatch and BumpedAbsent give its full effect. |
| Counts.BumpedFrame | app-fallback-openAI.py:53-57 | An increment keeps every name and every position, and raises each count by at most one. |
| Counts.BumpedFirstMatch | app-fallback-openAI.py:53-57 | Incrementing a name whose first occurrence is at position k adds 1 to record k only. The other records, all names and the order are unchanged. |
| Counts.BumpedAbsent | app-fallback-openAI.py:53-57 | Incrementing a name that is not in the table changes nothing. |
| Counts.SumBumped | app-fallback-openAI.py:53-57 | An increment raises the sum of counts by 1 exactly when the name is present, and by 0 otherwise. |
| Counts.BumpedCategoryAt | app-fallback-openAI.py:53-78 | In a well-formed table, incrementing a category's name adds 1 to that category's record and changes nothing else. |
| Counts.BumpedCategory | app-fallback-openAI.py:53-78 | In a well-formed table, incrementing a category's name adds 1 to that category's record. The table stays well formed and the sum grows by 1. |
| Counts.ShapeTable.constructor | app-fallback-openAI.py:46-52 | A fresh array holds the initial table. |
| Counts.ShapeTable.Increment | app-fallback-openAI.py:53-57 | The array after the scan with early exit equals the functional increment of the old array. |
| Pipeline.ProcessContours | app-fallback-openAI.py:46-93 | After the contour loop: the table is the tally of all contours, well formed, and sums to the number of contours; each record's count is the number of contours of its category; the draw log is two operations per contour, in contour order. |
| Pipeline.Tally | app-fallback-openAI.py:58-78 | The table after the loop has incremented each contour's category in turn. It keeps the table's length. TallyPerCategory, TallyWellFormed and TallyMonotone give its meaning. |
| Pipeline.ContourOps | app-fallback-openAI.py:84-93 | The two draw operations of one contour. ContourOpsMeaning gives their meaning. |
| Pipeline.ContourOpsMeaning | app-fallback-openAI.py:84-93 | The label text pairs with the category counted for the contour. The colour is black exactly when the grey level is above 50, and white otherwise. The label is centred horizontally on the centroid. The outline that follows is green. |
| Pipeline.DrawLog | app-fallback-openAI.py:58-93 | All draw operations of the loop: exactly two per contour. DrawLogOrder gives their order. |
| Pipeline.TallyPerCategory | app-fallback-openAI.py:58-78 | After counting, record k holds the name of category k and the number of contours classified into it. |
| Pipeline.TallyWellFormed | app-fallback-openAI.py:46-78 | Counting keeps the five names in order and every count non-negative. The counts sum to the number of contours processed. |
| Pipeline.TallyMonotone | app-fallback-openAI.py:58-78 | Counts never decrease: the table after any prefix of the contours is pointwise at most the final table. |
| Pipeline.CountOfMonotone | app-fallback-openAI.py:58-78 | The number of contours of a category in a prefix is at most that in the whole sequence. |
| Pipeline.CountOfTotal | app-fallback-openAI.py:61-78 | Every contour falls into exactly one category: the five per-category counts add up to the number of contours. |
| Pipeline.DrawLogOrder | app-fallback-openAI.py:58-93 | Entries 2i and 2i+1 of the log are contour i's label (text, origin, colour) and then its green outline. |
| Pipeline.LabelMatchesTally | app-fallback-openAI.py:58-91 | The label text drawn for contour i corresponds to the category counted for contour i. |
| Pipeline.ScenarioTable | app-fallback-openAI.py:46-78 | One triangle, one square and one circle give the table Triunghiuri 1, Pătrate 1, Dreptunghiuri 0, Pentagoane 0, Cercuri 1. |
| Pipeline.ScenarioLog | app-fallback-openAI.py:58-93 | The same three contours draw six operations: label "Triunghi", outline 0, label "Patrat", outline 1, label "Cerc", outline 2. |
| Pipeline.ThreeShapes | app-fallback-openAI.py:46-93 | The end-to-end scenario: the count table above, and three labelled, outlined regions in contour order. |

## Left out

- HTTP routing, the upload request, the 400 answer for a missing file, the JSON response and the server start (lines 16-39, 115-122): transport glue, not decision logic.
- Environment loading, the upload folder and the OpenAI client set-up (lines 8-25): configuration and file-system side effects.
- Decoding, grey conversion, blurring, edge detection, dilation, contour tracing, polygon approximation, perimeter, bounding box, moments, text measurement, text and contour drawing and image writing (lines 40-45, 60, 65, 79, 88, 91, 93, 96): calls into a vision library whose internals are not available. Their results are model inputs. Drawing is recorded as an ordered log, not as pixels.
- The centroid `int(m10/m00)` and `int(m01/m00)` (lines 80-81): floating-point division of library moments, truncated towards zero. `cx` and `cy` are given. The source has no guard for `m00 == 0`, so the model does not capture that crash.
- Reading the grey pixel at `(cy, cx)` (line 82): an array lookup into the library's image. The grey level is given. The model does not capture an out-of-range centroid.
- Font face, scale 1.2 and stroke thickness 2 of the text, and thickness 2 of the outline (lines 88, 91, 93): rendering parameters that only reach the library. The log records the text, origin and colour, and the outline's contour index and colour.
- The debug print of the brightness (line 83): console output.
- The OpenAI description fallback (lines 98-113): a network call with exceptions converted to a string. It runs after the loop and never reads or changes the count table, so it cannot affect any property stated here.
- Classifier.Classify: does not model a ZeroDivisionError for a four-vertex contour of height 0. The source raises there, so the model makes it a precondition.
