/** The maps between graph space and viewport space that a camera state
    defines: an isotropic zoom, a flip of the y axis, a rotation and a shift
    to the viewport centre. */
module Transform {
  import opened Geometry
  import opened States

  /** The camera's focal point, which the viewport centre shows. */
  function Focus(st: CameraState): Point {
    Point(st.x, st.y)
  }

  /** Pixels per graph unit: the shorter viewport side over the ratio. */
  function Scale(st: CameraState, d: Dimensions): real
    requires st.ratio != 0.0
  {
    Min(d.width, d.height) / st.ratio
  }

  /** The scale is the shorter side over the ratio: doubling the ratio halves
      it, and it is positive for a positive ratio and a non-empty viewport. */
  lemma ScaleMeaning(st: CameraState, d: Dimensions)
    requires st.ratio != 0.0
    ensures Scale(st, d) * st.ratio == Min(d.width, d.height)
    ensures Min(d.width, d.height) > 0.0 && st.ratio > 0.0 ==> Scale(st, d) > 0.0
  {
  }

  /** A graph-space offset scaled to pixels, with y turned to point down. */
  function ToPixels(k: real, v: Point): Point {
    Point(v.x * k, -(v.y * k))
  }

  /** Graph units per pixel: the ratio over the shorter viewport side. The
      viewport-to-graph map divides pixel offsets by the scale; a zero ratio
      makes the host's scale +Infinity and that division 0, so the factor is
      written as a product, which agrees for every non-zero ratio and yields
      0 for a zero one. */
  function InverseScale(st: CameraState, d: Dimensions): real
    requires Min(d.width, d.height) != 0.0
  {
    st.ratio / Min(d.width, d.height)
  }

  /** Where both are defined, the two factors are reciprocal. */
  lemma InverseScaleMeaning(st: CameraState, d: Dimensions)
    requires st.ratio != 0.0 && Min(d.width, d.height) != 0.0
    ensures InverseScale(st, d) * Scale(st, d) == 1.0
    ensures Scale(st, d) * InverseScale(st, d) == 1.0
  {
  }

  /** Scaling to pixels by `k` and then by a reciprocal `j` (which also flips
      y back) gives the offset. */
  lemma ToPixelsInverse(j: real, k: real, v: Point)
    requires j * k == 1.0
    ensures ToPixels(j, ToPixels(k, v)) == v
  {
  }

  /** Scaling to pixels multiplies lengths by `k`. */
  lemma ToPixelsNorm(k: real, v: Point)
    ensures Norm2(ToPixels(k, v)) == k * k * Norm2(v)
  {
  }

  /** Scaling to pixels is linear. */
  lemma ToPixelsSub(k: real, a: Point, b: Point)
    ensures Sub(ToPixels(k, a), ToPixels(k, b)) == ToPixels(k, Sub(a, b))
  {
  }

  /** Graph space to viewport pixels for camera state `st`, whose angle has
      cosine and sine `t`. The focal point lands on the viewport centre. */
  function GraphToViewport(st: CameraState, t: Trig, d: Dimensions, p: Point): (r: Point)
    requires st.ratio != 0.0
    ensures p == Focus(st) ==> r == Centre(d)
  {
    Add(Centre(d), Rotate(t, ToPixels(Scale(st, d), Sub(p, Focus(st)))))
  }

  /** Viewport pixels to graph space: undo the shift, rotate by the opposite
      angle, scale back by the reciprocal factor and flip y, then add the
      focal point. The viewport centre lands on the focal point, and so does
      every pixel at a zero ratio, as the host's division by an infinite
      scale gives. */
  function ViewportToGraph(st: CameraState, t: Trig, d: Dimensions, q: Point): (r: Point)
    requires Min(d.width, d.height) != 0.0
    ensures q == Centre(d) ==> r == Focus(st)
    ensures st.ratio == 0.0 ==> r == Focus(st)
  {
    Add(Focus(st), ToPixels(InverseScale(st, d), Unrotate(t, Sub(q, Centre(d)))))
  }

  /** Mapping a graph point to the viewport and back gives the point. */
  lemma {:induction false} GraphRoundTrip(st: CameraState, t: Trig, d: Dimensions, p: Point)
    requires st.ratio != 0.0 && Min(d.width, d.height) != 0.0
    requires IsUnit(t)
    ensures ViewportToGraph(st, t, d, GraphToViewport(st, t, d, p)) == p
  {
    var k := Scale(st, d);
    var u := ToPixels(k, Sub(p, Focus(st)));
    var q := GraphToViewport(st, t, d, p);
    assert Sub(q, Centre(d)) == Rotate(t, u);
    UnrotateRotate(t, u);
    InverseScaleMeaning(st, d);
    ToPixelsInverse(InverseScale(st, d), k, Sub(p, Focus(st)));
  }

  /** Mapping a viewport pixel to graph space and back gives the pixel. */
  lemma {:induction false} ViewportRoundTrip(st: CameraState, t: Trig, d: Dimensions, q: Point)
    requires st.ratio != 0.0 && Min(d.width, d.height) != 0.0
    requires IsUnit(t)
    ensures GraphToViewport(st, t, d, ViewportToGraph(st, t, d, q)) == q
  {
    var k := Scale(st, d);
    var w := Unrotate(t, Sub(q, Centre(d)));
    var p := ViewportToGraph(st, t, d, q);
    assert Sub(p, Focus(st)) == ToPixels(InverseScale(st, d), w);
    InverseScaleMeaning(st, d);
    ToPixelsInverse(k, InverseScale(st, d), w);
    RotateUnrotate(t, Sub(q, Centre(d)));
  }

  /** The zoom is the same on both axes and the rotation keeps angles: any
      two graph points end up `scale` times as far apart on the viewport. */
  lemma {:induction false} GraphToViewportScalesDistances(st: CameraState, t: Trig, d: Dimensions, p: Point, p': Point)
    requires st.ratio != 0.0
    requires IsUnit(t)
    ensures Norm2(Sub(GraphToViewport(st, t, d, p), GraphToViewport(st, t, d, p')))
         == Scale(st, d) * Scale(st, d) * Norm2(Sub(p, p'))
  {
    var k := Scale(st, d);
    var a := ToPixels(k, Sub(p, Focus(st)));
    var b := ToPixels(k, Sub(p', Focus(st)));
    assert Sub(GraphToViewport(st, t, d, p), GraphToViewport(st, t, d, p'))
        == Sub(Rotate(t, a), Rotate(t, b));
    RotateSub(t, a, b);
    ToPixelsSub(k, Sub(p, Focus(st)), Sub(p', Focus(st)));
    assert Sub(Sub(p, Focus(st)), Sub(p', Focus(st))) == Sub(p, p');
    RotatePreservesNorm(t, ToPixels(k, Sub(p, p')));
    ToPixelsNorm(k, Sub(p, p'));
  }

  /** Without rotation the map is an explicit affine one: each axis is
      scaled by the same factor about the focal point, y is flipped, and the
      focal point sits at the viewport centre. */
  lemma UnrotatedFormula(st: CameraState, d: Dimensions, p: Point)
    requires st.ratio != 0.0
    ensures GraphToViewport(st, Unrotated, d, p)
         == Point(d.width / 2.0 + (p.x - st.x) * Scale(st, d), d.height / 2.0 - (p.y - st.y) * Scale(st, d))
  {
  }

  /** Turned a quarter turn (cosine 0, sine 1), graph x runs down the
      viewport and graph y runs to the right, both scaled by the same factor
      about the focal point. */
  lemma QuarterTurnFormula(st: CameraState, d: Dimensions, p: Point)
    requires st.ratio != 0.0
    ensures GraphToViewport(st, QuarterTurn, d, p)
         == Point(d.width / 2.0 + (p.y - st.y) * Scale(st, d), d.height / 2.0 + (p.x - st.x) * Scale(st, d))
  {
  }

  /** Multiplying by a positive factor keeps the sign. */
  lemma PositiveFactor(a: real, k: real)
    requires k > 0.0
    ensures a > 0.0 <==> a * k > 0.0
  {
  }

  /** Without rotation and with a positive scale, graph x grows to the right
      on the viewport and graph y grows upward, that is toward smaller
      viewport y. */
  lemma UnrotatedOrientation(st: CameraState, d: Dimensions, p: Point, p': Point)
    requires st.ratio > 0.0 && Min(d.width, d.height) > 0.0
    ensures p.x < p'.x <==> GraphToViewport(st, Unrotated, d, p).x < GraphToViewport(st, Unrotated, d, p').x
    ensures p.y < p'.y <==> GraphToViewport(st, Unrotated, d, p).y > GraphToViewport(st, Unrotated, d, p').y
  {
    var k := Scale(st, d);
    ScaleMeaning(st, d);
    var q, q' := GraphToViewport(st, Unrotated, d, p), GraphToViewport(st, Unrotated, d, p');
    assert q == Add(Centre(d), ToPixels(k, Sub(p, Focus(st))));
    assert q' == Add(Centre(d), ToPixels(k, Sub(p', Focus(st))));
    ToPixelsSub(k, Sub(p', Focus(st)), Sub(p, Focus(st)));
    assert Sub(Sub(p', Focus(st)), Sub(p, Focus(st))) == Sub(p', p);
    assert Sub(q', q) == ToPixels(k, Sub(p', p));
    PositiveFactor(p'.x - p.x, k);
    PositiveFactor(p'.y - p.y, k);
  }
}
