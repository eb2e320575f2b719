/** Colors and tagged samples, and the squared RGB distance the clustering is built on. */
module Colors {

  /** A color as go-colorful holds it: sRGB channels in [0, 1], each a real (a float64 in main.go). */
  datatype Color = Color(r: real, g: real, b: real)

  /** A sample or a centroid: a color tagged with a cluster label. */
  datatype ImageVector = ImageVector(color: Color, group: int)

  /** The zero color that an empty cluster's centroid is reset to. */
  const Black: Color := Color(0.0, 0.0, 0.0)

  /** Every channel lies in [0, 1], the range of go-colorful's sRGB channels and of rand.Float64. */
  predicate InUnitCube(c: Color) {
    0.0 <= c.r <= 1.0 && 0.0 <= c.g <= 1.0 && 0.0 <= c.b <= 1.0
  }

  /** The squared deviation along one channel is non-negative, and at most 1 between unit-range values. */
  lemma SquareBounds(x: real, y: real)
    ensures (x - y) * (x - y) >= 0.0
    ensures 0.0 <= x <= 1.0 && 0.0 <= y <= 1.0 ==> (x - y) * (x - y) <= 1.0
  {
    var d := x - y;
    if 0.0 <= x <= 1.0 && 0.0 <= y <= 1.0 {
      if d >= 0.0 {
        assert d * d <= d * 1.0;
      } else {
        assert d * d <= (-d) * 1.0;
      }
    }
  }

  /** calcDistance: the squared Euclidean distance over the R, G and B channels. */
  function Distance(v: Color, c: Color): (d: real)
    ensures d >= 0.0
    ensures v == c ==> d == 0.0
    ensures InUnitCube(v) && InUnitCube(c) ==> d <= 3.0
  {
    SquareBounds(v.r, c.r);
    SquareBounds(v.g, c.g);
    SquareBounds(v.b, c.b);
    (v.r - c.r) * (v.r - c.r) + (v.g - c.g) * (v.g - c.g) + (v.b - c.b) * (v.b - c.b)
  }
}
