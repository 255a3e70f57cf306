/**
 * Box geometry for the drawing state machine in AnnotationTool.js. Screen
 * coordinates are exact reals; only `Math.min`, `Math.max` and `Math.abs` are used.
 */
module Geometry {

  /** What `getBoundingClientRect()` reports for the frame container. */
  datatype Rect = Rect(left: real, top: real, width: real, height: real)

  /** A box shape in coordinates relative to the container's top-left corner. */
  datatype Shape = Shape(x: real, y: real, width: real, height: real)

  /** An annotation: a shape and its class label (`""` while unassigned). */
  datatype Box = Box(x: real, y: real, width: real, height: real, className: string) {
    function ShapeOf(): Shape { Shape(x, y, width, height) }
  }

  function Min(a: real, b: real): real { if a <= b then a else b }
  function Max(a: real, b: real): real { if a >= b then a else b }
  function Abs(a: real): real { if a >= 0.0 then a else -a }

  /** `Math.max(0, Math.min(v, hi))`: `v` pulled into `[0, hi]`. */
  function Clamp(v: real, hi: real): (r: real)
    ensures 0.0 <= r
    ensures 0.0 <= hi ==> r <= hi
    ensures 0.0 <= v <= hi ==> r == v
    ensures v <= 0.0 ==> r == 0.0
    ensures 0.0 <= hi <= v ==> r == hi
  {
    Max(0.0, Min(v, hi))
  }

  /**
   * The live preview between the anchor `(ax, ay)` and the corner `(cx, cy)`:
   * `{x: min(cx, ax), y: min(cy, ay), width: |cx - ax|, height: |cy - ay|}`.
   * Whatever the drag direction, its left and right edges are the two x values and
   * its top and bottom edges the two y values, with non-negative size.
   */
  function Preview(ax: real, ay: real, cx: real, cy: real): (g: Shape)
    ensures g.width >= 0.0 && g.height >= 0.0
    ensures {g.x, g.x + g.width} == {ax, cx}
    ensures {g.y, g.y + g.height} == {ay, cy}
  {
    Shape(Min(cx, ax), Min(cy, ay), Abs(cx - ax), Abs(cy - ay))
  }

  /** The preview does not depend on which corner is the anchor. */
  lemma PreviewSymmetric(ax: real, ay: real, cx: real, cy: real)
    ensures Preview(ax, ay, cx, cy) == Preview(cx, cy, ax, ay)
  {
  }

  /** The shape lies inside a `width` by `height` area anchored at the origin. */
  predicate Within(g: Shape, width: real, height: real) {
    0.0 <= g.x && 0.0 <= g.y && g.x + g.width <= width && g.y + g.height <= height
  }

  /** The point `(px, py)`, relative to `rect`'s top-left corner, lies within its extent. */
  predicate InRect(px: real, py: real, rect: Rect) {
    0.0 <= px <= rect.width && 0.0 <= py <= rect.height
  }

  /**
   * A pointer move: the pointer made relative to `rect`, clamped to its extent, and
   * the preview from the anchor to that point.
   */
  function MovePreview(startX: real, startY: real, clientX: real, clientY: real, rect: Rect): (g: Shape)
    ensures g.width >= 0.0 && g.height >= 0.0
    ensures InRect(startX, startY, rect) ==> Within(g, rect.width, rect.height)
  {
    Preview(startX, startY, Clamp(clientX - rect.left, rect.width), Clamp(clientY - rect.top, rect.height))
  }

  /**
   * With the pointer inside the rectangle no clamping takes place: the preview spans
   * exactly from the anchor to the pointer, in any of the four drag directions.
   */
  lemma MovePreviewUnclamped(startX: real, startY: real, clientX: real, clientY: real, rect: Rect)
    requires InRect(clientX - rect.left, clientY - rect.top, rect)
    ensures var g := MovePreview(startX, startY, clientX, clientY, rect);
      {g.x, g.x + g.width} == {startX, clientX - rect.left} && {g.y, g.y + g.height} == {startY, clientY - rect.top}
  {
  }

  /** The finished annotation: the preview with an unassigned class (`{...currentBox, class: ""}`). */
  function Finish(g: Shape): (b: Box)
    ensures b.ShapeOf() == g && b.className == ""
  {
    Box(g.x, g.y, g.width, g.height, "")
  }
}
