/** The camera's documented behaviour on concrete values: a 200 by 100
    viewport, the graph centre (0.5, 0.5) and the point (0.75, 0.75) toward
    the top right of graph space. */
module Scenarios {
  import opened Options
  import opened Geometry
  import opened States
  import opened Cameras
  import opened Transform

  const Viewport := Dimensions(200.0, 100.0)
  const GraphCentre := Point(0.5, 0.5)
  const GraphTopRight := Point(0.75, 0.75)

  /** The pan and zoom applied first: focal point (1, 0.5), ratio 0.5, the
      angle left out. */
  const PanZoom := Partial(Some(1.0), Some(0.5), None, Some(0.5))

  /** The same pan and zoom with the angle set to `halfPi`. */
  function PanZoomTurn(halfPi: real): Partial {
    Partial(Some(1.0), Some(0.5), Some(halfPi), Some(0.5))
  }

  /** A new camera reads the default state. */
  lemma NewCameraState()
    ensures GetState(New()) == CameraState(0.5, 0.5, 0.0, 1.0)
  {
  }

  /** The three views of the test as explicit maps of every graph point:
      the default view, the pan and zoom, and the pan and zoom turned a
      quarter turn. Each vector lemma below applies one of them. The state,
      pair and viewport are parameters pinned by equalities rather than
      literals: with literal arguments the verifier unfolds the nonlinear
      real arithmetic of the transform eagerly and does not finish. */
  lemma DefaultView(st: CameraState, t: Trig, d: Dimensions, p: Point)
    requires st.x == 0.5 && st.y == 0.5 && st.ratio == 1.0
    requires t == Unrotated && d == Viewport
    ensures GraphToViewport(st, t, d, p) == Point(100.0 + (p.x - 0.5) * 100.0, 50.0 - (p.y - 0.5) * 100.0)
  {
    UnrotatedFormula(st, d, p);
    assert Scale(st, d) == 100.0;
  }

  lemma PanZoomView(st: CameraState, t: Trig, d: Dimensions, p: Point)
    requires st.x == 1.0 && st.y == 0.5 && st.ratio == 0.5
    requires t == Unrotated && d == Viewport
    ensures GraphToViewport(st, t, d, p) == Point(100.0 + (p.x - 1.0) * 200.0, 50.0 - (p.y - 0.5) * 200.0)
  {
    UnrotatedFormula(st, d, p);
    assert Scale(st, d) == 200.0;
  }

  lemma QuarterTurnView(st: CameraState, t: Trig, d: Dimensions, p: Point)
    requires st.x == 1.0 && st.y == 0.5 && st.ratio == 0.5
    requires t == QuarterTurn && d == Viewport
    ensures GraphToViewport(st, t, d, p) == Point(100.0 + (p.y - 0.5) * 200.0, 50.0 + (p.x - 1.0) * 200.0)
  {
    QuarterTurnFormula(st, d, p);
    assert Scale(st, d) == 200.0;
  }

  /** Default view: the graph centre shows at the viewport centre. */
  lemma DefaultCentre(c: Camera, t: Trig, d: Dimensions, p: Point)
    requires c == New()
    requires TrigOf(GetState(c).angle, t)
    requires d == Viewport && p == GraphCentre
    ensures GraphToViewport(GetState(c), t, d, p) == Point(100.0, 50.0)
  {
    var st := GetState(c);
    assert st == DefaultState;
    assert t == Unrotated;
    DefaultView(st, t, d, p);
  }

  /** Default view: (0.75, 0.75) shows up and to the right of the centre,
      so graph y grows upward on screen. */
  lemma DefaultTopRight(c: Camera, t: Trig, d: Dimensions, p: Point)
    requires c == New()
    requires TrigOf(GetState(c).angle, t)
    requires d == Viewport && p == GraphTopRight
    ensures GraphToViewport(GetState(c), t, d, p) == Point(125.0, 25.0)
  {
    var st := GetState(c);
    assert st == DefaultState;
    assert t == Unrotated;
    DefaultView(st, t, d, p);
  }

  /** Default view: every graph point maps to the viewport and back to itself. */
  lemma DefaultRoundTrip(c: Camera, t: Trig, d: Dimensions, p: Point)
    requires c == New()
    requires TrigOf(GetState(c).angle, t)
    requires d == Viewport
    ensures ViewportToGraph(GetState(c), t, d, GraphToViewport(GetState(c), t, d, p)) == p
  {
    GraphRoundTrip(GetState(c), t, d, p);
  }

  /** The partial pan and zoom leaves the angle at its default 0. */
  lemma PanZoomState()
    ensures GetState(SetState(New(), PanZoom)) == CameraState(1.0, 0.5, 0.0, 0.5)
  {
  }

  /** Panned right and zoomed in two-fold: the graph centre shows at the
      left edge. */
  lemma PanZoomCentre(c: Camera, t: Trig, d: Dimensions, p: Point)
    requires c == SetState(New(), PanZoom)
    requires TrigOf(GetState(c).angle, t)
    requires d == Viewport && p == GraphCentre
    ensures GraphToViewport(GetState(c), t, d, p) == Point(0.0, 50.0)
  {
    var st := GetState(c);
    assert st == CameraState(1.0, 0.5, 0.0, 0.5);
    assert t == Unrotated;
    PanZoomView(st, t, d, p);
  }

  /** Panned and zoomed: (0.75, 0.75) shows on the top edge. */
  lemma PanZoomTopRight(c: Camera, t: Trig, d: Dimensions, p: Point)
    requires c == SetState(New(), PanZoom)
    requires TrigOf(GetState(c).angle, t)
    requires d == Viewport && p == GraphTopRight
    ensures GraphToViewport(GetState(c), t, d, p) == Point(50.0, 0.0)
  {
    var st := GetState(c);
    assert st == CameraState(1.0, 0.5, 0.0, 0.5);
    assert t == Unrotated;
    PanZoomView(st, t, d, p);
  }

  /** Panned and zoomed: every graph point maps to the viewport and back. */
  lemma PanZoomRoundTrip(c: Camera, t: Trig, d: Dimensions, p: Point)
    requires c == SetState(New(), PanZoom)
    requires TrigOf(GetState(c).angle, t)
    requires d == Viewport
    ensures ViewportToGraph(GetState(c), t, d, GraphToViewport(GetState(c), t, d, p)) == p
  {
    GraphRoundTrip(GetState(c), t, d, p);
  }

  /** The same view turned a quarter turn: `halfPi` is the angle the test
      sets and `t` its pair (cosine 0, sine 1); `TrigOf` rules out an angle of
      0 for that pair. The graph centre shows above the viewport. */
  lemma QuarterTurnCentre(halfPi: real, c: Camera, t: Trig, d: Dimensions, p: Point)
    requires c == SetState(SetState(New(), PanZoom), PanZoomTurn(halfPi))
    requires TrigOf(GetState(c).angle, t) && t == QuarterTurn
    requires d == Viewport && p == GraphCentre
    ensures GraphToViewport(GetState(c), t, d, p) == Point(100.0, -50.0)
  {
    var st := GetState(c);
    assert st == CameraState(1.0, 0.5, halfPi, 0.5);
    QuarterTurnView(st, t, d, p);
  }

  /** Quarter-turned: (0.75, 0.75) shows at the top right corner. */
  lemma QuarterTurnTopRight(halfPi: real, c: Camera, t: Trig, d: Dimensions, p: Point)
    requires c == SetState(SetState(New(), PanZoom), PanZoomTurn(halfPi))
    requires TrigOf(GetState(c).angle, t) && t == QuarterTurn
    requires d == Viewport && p == GraphTopRight
    ensures GraphToViewport(GetState(c), t, d, p) == Point(150.0, 0.0)
  {
    var st := GetState(c);
    assert st == CameraState(1.0, 0.5, halfPi, 0.5);
    QuarterTurnView(st, t, d, p);
  }

  /** Quarter-turned: every graph point maps to the viewport and back. */
  lemma QuarterTurnRoundTrip(halfPi: real, c: Camera, t: Trig, d: Dimensions, p: Point)
    requires c == SetState(SetState(New(), PanZoom), PanZoomTurn(halfPi))
    requires TrigOf(GetState(c).angle, t) && t == QuarterTurn
    requires d == Viewport
    ensures ViewportToGraph(GetState(c), t, d, GraphToViewport(GetState(c), t, d, p)) == p
  {
    GraphRoundTrip(GetState(c), t, d, p);
  }

  /** The history test: two full states, then the previous state is the
      first of them. */
  lemma PreviousStateScenario()
    ensures GetPreviousState(SetState(SetState(New(), Full(CameraState(34.0, 56.0, 10.0, 4.0))), Full(CameraState(5.0, -3.0, 0.0, 5.0))))
         == CameraState(34.0, 56.0, 10.0, 4.0)
  {
    PreviousAfterTwoSets(New(), CameraState(34.0, 56.0, 10.0, 4.0), CameraState(5.0, -3.0, 0.0, 5.0));
  }

  /** The gate test: after disabling, a different state is not taken. */
  lemma DisabledScenario()
    ensures CameraState(10.0, -45.0, 0.0, 3.0) != CameraState(123.0, 456.0, 0.0, 1.0)
    ensures GetState(SetState(Disable(SetState(New(), Full(CameraState(10.0, -45.0, 0.0, 3.0)))), Full(CameraState(123.0, 456.0, 0.0, 1.0))))
         == CameraState(10.0, -45.0, 0.0, 3.0)
  {
    DisabledKeepsState(New(), CameraState(10.0, -45.0, 0.0, 3.0), CameraState(123.0, 456.0, 0.0, 1.0));
  }
}
