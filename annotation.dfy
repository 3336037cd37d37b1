/**
 How one classified contour is annotated: the colour of its label, chosen
 from the grey level under the centroid, and the point where the label is
 drawn, computed from the centroid and the measured size of the text.
 */
module Annotation {

  /** An 8-bit grey level, as read from the grey image. */
  newtype Byte = x: int | 0 <= x < 256

  /** A colour in the image's blue, green, red channel order. */
  datatype Colour = Colour(b: int, g: int, r: int)

  const Black: Colour := Colour(0, 0, 0)
  const White: Colour := Colour(255, 255, 255)
  /** The colour of every contour outline. */
  const Green: Colour := Colour(0, 255, 0)

  /** Grey levels strictly above this get a black label, the rest a white one. */
  const BrightnessThreshold: Byte := 50

  /** The label is drawn this many pixels below the centred position. */
  const LabelDrop: int := 30

  /** A pixel position. */
  datatype Point = Point(x: int, y: int)

  /** Width and height of a rendered text, as the font measures it. */
  datatype TextSize = TextSize(width: int, height: int)

  /** Black on a bright background, white on a dark one. */
  function TextColour(brightness: Byte): (c: Colour)
    ensures c == Black <==> brightness > BrightnessThreshold
    ensures c == White <==> brightness <= BrightnessThreshold
  {
    if brightness > BrightnessThreshold then Black else White
  }

  /** Integer division by two rounding towards minus infinity, as `n // 2` does. */
  function FloorHalf(n: int): (q: int)
    ensures 2 * q <= n < 2 * q + 2
  {
    n / 2
  }

  /**
   The origin handed to the text renderer. x is the centroid's x minus half
   the text width, rounded down; y is the centroid's y minus half the text
   height, rounded down, plus LabelDrop. The renderer takes this point as the
   left end of the text's baseline, so the text is centred horizontally on
   the centroid (to within half a pixel); vertically only the arithmetic is stated.
   */
  function LabelOrigin(cx: int, cy: int, size: TextSize): (p: Point)
    ensures 2 * cx <= 2 * p.x + size.width <= 2 * cx + 1
    ensures 2 * cy <= 2 * (p.y - LabelDrop) + size.height <= 2 * cy + 1
  {
    Point(cx - FloorHalf(size.width), cy - FloorHalf(size.height) + LabelDrop)
  }

  /** The threshold itself gets white; one above it gets black. */
  lemma ColourThreshold()
    ensures TextColour(50) == White && TextColour(51) == Black
    ensures TextColour(0) == White && TextColour(255) == Black
  {
  }

  /** A brighter background never turns a black label white. */
  lemma ColourMonotone(b1: Byte, b2: Byte)
    requires b1 <= b2
    ensures TextColour(b1) == Black ==> TextColour(b2) == Black
    ensures TextColour(b2) == White ==> TextColour(b1) == White
  {
  }

  /** The label origin is the unique point with the centring property. */
  lemma LabelOriginUnique(cx: int, cy: int, size: TextSize, p: Point)
    requires 2 * cx <= 2 * p.x + size.width <= 2 * cx + 1
    requires 2 * cy <= 2 * (p.y - LabelDrop) + size.height <= 2 * cy + 1
    ensures p == LabelOrigin(cx, cy, size)
  {
  }

  /** An even-sized text is centred exactly; moving the centroid moves the label by the same amount. */
  lemma LabelOriginShift(cx: int, cy: int, size: TextSize, dx: int, dy: int)
    ensures LabelOrigin(cx + dx, cy + dy, size)
         == Point(LabelOrigin(cx, cy, size).x + dx, LabelOrigin(cx, cy, size).y + dy)
    ensures size.width % 2 == 0 ==> 2 * LabelOrigin(cx, cy, size).x + size.width == 2 * cx
  {
  }
}
