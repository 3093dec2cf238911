/**
 * The pseudo-3D projection: a world point seen from a camera at a given
 * depth becomes a screen point and a scale factor. The forward distance is
 * floored at a small epsilon so that points at or behind the camera give a
 * large finite scale instead of a division by zero.
 */
module Projection {
  import opened Numeric

  datatype ScreenPoint = ScreenPoint(x: real, y: real, scale: real)

  /** The floor on the forward distance in the division. */
  const MinDepth: real := 0.0001

  /** `project(worldX, worldY, worldZ, camX, camY, camZ, camDepth, screenW, screenH)`. */
  function Project(worldX: real, worldY: real, worldZ: real,
                   camX: real, camY: real, camZ: real,
                   camDepth: real, screenW: real, screenH: real): (p: ScreenPoint)
    requires screenW != 0.0 && screenH != 0.0
    ensures 0.0 < camDepth ==> 0.0 < p.scale <= camDepth / MinDepth
    ensures worldZ - camZ <= MinDepth ==> p.scale == camDepth / MinDepth
    ensures worldX == camX ==> p.x == screenW / 2.0
    ensures worldY == camY ==> p.y == screenH / 2.0
  {
    var scale := camDepth / Max(MinDepth, worldZ - camZ);
    ScaleBounds(camDepth, Max(MinDepth, worldZ - camZ));
    var x := (1.0 + Mul(scale, worldX - camX) / screenW) * (screenW / 2.0);
    var y := (1.0 - Mul(scale, worldY - camY) / screenH) * (screenH / 2.0);
    ScreenPoint(x, y, scale)
  }

  lemma ScaleBounds(camDepth: real, d: real)
    requires MinDepth <= d
    ensures 0.0 < camDepth ==> 0.0 < camDepth / d <= camDepth / MinDepth
  {
  }

  /** c / b <= c / a for 0 < a <= b and c >= 0. */
  lemma DivLe(c: real, a: real, b: real)
    requires 0.0 <= c && 0.0 < a <= b
    ensures 0.0 <= c / b <= c / a
  {
  }

  /** A point farther ahead of the camera never projects larger: the scale
      does not grow with the forward distance. */
  lemma ScaleNonIncreasing(worldZ1: real, worldZ2: real, camZ: real, camDepth: real,
                           worldX: real, worldY: real, camX: real, camY: real,
                           screenW: real, screenH: real)
    requires screenW != 0.0 && screenH != 0.0
    requires 0.0 <= camDepth && worldZ1 <= worldZ2
    ensures Project(worldX, worldY, worldZ2, camX, camY, camZ, camDepth, screenW, screenH).scale
         <= Project(worldX, worldY, worldZ1, camX, camY, camZ, camDepth, screenW, screenH).scale
  {
    DivLe(camDepth, Max(MinDepth, worldZ1 - camZ), Max(MinDepth, worldZ2 - camZ));
  }

  /** With a positive scale, a point right of the camera lands right of the
      screen centre and a point above it lands above the centre. */
  lemma ProjectSides(worldX: real, worldY: real, worldZ: real,
                     camX: real, camY: real, camZ: real,
                     camDepth: real, screenW: real, screenH: real)
    requires 0.0 < screenW && 0.0 < screenH && 0.0 < camDepth
    ensures var p := Project(worldX, worldY, worldZ, camX, camY, camZ, camDepth, screenW, screenH);
            (worldX > camX <==> p.x > screenW / 2.0) && (worldY > camY <==> p.y < screenH / 2.0)
  {
    var s := Project(worldX, worldY, worldZ, camX, camY, camZ, camDepth, screenW, screenH).scale;
    Offset(Mul(s, worldX - camX), screenW);
    Offset(-Mul(s, worldY - camY), screenH);
    SignOfProduct(s, worldX - camX);
    SignOfProduct(s, worldY - camY);
  }

  /** The screen coordinate lies q/2 from the centre. */
  lemma Offset(q: real, w: real)
    requires 0.0 < w
    ensures (1.0 + q / w) * (w / 2.0) == w / 2.0 + q / 2.0
  {
  }

  lemma SignOfProduct(s: real, d: real)
    requires 0.0 < s
    ensures d > 0.0 <==> Mul(s, d) > 0.0
  {
  }
}
