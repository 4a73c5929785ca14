/** An optional value, for the fields a partial state may leave out. */
module Options {
  datatype Option<+T> = None | Some(value: T)
}

/** The camera's state and the partial states that callers hand to
    `setState`. */
module States {
  import opened Options

  /** Focal point (x, y) in graph space, rotation angle in radians and
      zoom ratio (larger zooms out). */
  datatype CameraState = CameraState(x: real, y: real, angle: real, ratio: real)

  /** A state with any of its fields left out. */
  datatype Partial = Partial(x: Option<real>, y: Option<real>, angle: Option<real>, ratio: Option<real>)

  /** The state of a freshly built camera. */
  const DefaultState := CameraState(0.5, 0.5, 0.0, 1.0)

  /** The partial state that gives every field. */
  function Full(s: CameraState): Partial {
    Partial(Some(s.x), Some(s.y), Some(s.angle), Some(s.ratio))
  }

  /** Every field that `p` gives has that value in `s`. */
  predicate Agrees(p: Partial, s: CameraState) {
    && (p.x.Some? ==> s.x == p.x.value)
    && (p.y.Some? ==> s.y == p.y.value)
    && (p.angle.Some? ==> s.angle == p.angle.value)
    && (p.ratio.Some? ==> s.ratio == p.ratio.value)
  }

  /** Every field that `p` leaves out has in `s` its value in `base`. */
  predicate KeepsOmitted(base: CameraState, p: Partial, s: CameraState) {
    && (p.x.None? ==> s.x == base.x)
    && (p.y.None? ==> s.y == base.y)
    && (p.angle.None? ==> s.angle == base.angle)
    && (p.ratio.None? ==> s.ratio == base.ratio)
  }

  /** `p` laid over `base` field by field. */
  function Merge(base: CameraState, p: Partial): (r: CameraState)
    ensures Agrees(p, r)
    ensures KeepsOmitted(base, p, r)
  {
    CameraState(
      if p.x.Some? then p.x.value else base.x,
      if p.y.Some? then p.y.value else base.y,
      if p.angle.Some? then p.angle.value else base.angle,
      if p.ratio.Some? then p.ratio.value else base.ratio)
  }

  /** The merge is the only state that takes the given fields from `p` and
      the others from `base`. */
  lemma MergeUnique(base: CameraState, p: Partial, s: CameraState)
    ensures s == Merge(base, p) <==> Agrees(p, s) && KeepsOmitted(base, p, s)
  {
  }

  /** A full state replaces the base entirely. */
  lemma MergeFull(base: CameraState, s: CameraState)
    ensures Merge(base, Full(s)) == s
  {
  }

  /** `q` gives every field that `p` gives. */
  predicate Covers(q: Partial, p: Partial) {
    && (p.x.Some? ==> q.x.Some?)
    && (p.y.Some? ==> q.y.Some?)
    && (p.angle.Some? ==> q.angle.Some?)
    && (p.ratio.Some? ==> q.ratio.Some?)
  }

  /** A later partial state that gives every field an earlier one gave
      overrides it completely: the earlier one leaves no trace. */
  lemma MergeOverride(base: CameraState, p: Partial, q: Partial)
    requires Covers(q, p)
    ensures Merge(Merge(base, p), q) == Merge(base, q)
  {
  }

  /** Merging the same partial state twice is merging it once. */
  lemma MergeIdempotent(base: CameraState, p: Partial)
    ensures Merge(Merge(base, p), p) == Merge(base, p)
  {
  }
}

/** The camera: a current state, the state before the last accepted change
    and the gate that lets changes through. */
module Cameras {
  import opened States

  datatype Camera = Camera(state: CameraState, previous: CameraState, enabled: bool)

  /** A new camera: enabled, default state, no change recorded yet. */
  function New(): (c: Camera)
    ensures c.enabled
    ensures c.previous == c.state
    ensures c.state.x == 0.5 && c.state.y == 0.5
    ensures c.state.angle == 0.0 && c.state.ratio == 1.0
  {
    Camera(DefaultState, DefaultState, true)
  }

  /** The current state. */
  function GetState(c: Camera): CameraState {
    c.state
  }

  /** The state before the last accepted change. */
  function GetPreviousState(c: Camera): CameraState {
    c.previous
  }

  /** Opens the gate; the states are untouched. */
  function Enable(c: Camera): (r: Camera)
    ensures r.enabled
    ensures r.state == c.state && r.previous == c.previous
  {
    c.(enabled := true)
  }

  /** Closes the gate; the states are untouched. */
  function Disable(c: Camera): (r: Camera)
    ensures !r.enabled
    ensures r.state == c.state && r.previous == c.previous
  {
    c.(enabled := false)
  }

  /** A disabled camera ignores the call. An enabled one records its current
      state as the previous one and lays `p` over the current state. */
  function SetState(c: Camera, p: Partial): (r: Camera)
    ensures !c.enabled ==> r == c
    ensures c.enabled ==> r.enabled && r.previous == c.state
    ensures c.enabled ==> Agrees(p, r.state) && KeepsOmitted(c.state, p, r.state)
  {
    if !c.enabled then c
    else Camera(Merge(c.state, p), c.state, true)
  }

  /** Setting a full state on an enabled camera makes it the current state. */
  lemma SetFullState(c: Camera, s: CameraState)
    requires c.enabled
    ensures GetState(SetState(c, Full(s))) == s
    ensures GetPreviousState(SetState(c, Full(s))) == GetState(c)
  {
  }

  /** After two full states, the first is the previous state and the second
      the current one. */
  lemma PreviousAfterTwoSets(c: Camera, s1: CameraState, s2: CameraState)
    requires c.enabled
    ensures GetPreviousState(SetState(SetState(c, Full(s1)), Full(s2))) == s1
    ensures GetState(SetState(SetState(c, Full(s1)), Full(s2))) == s2
  {
    SetFullState(c, s1);
    SetFullState(SetState(c, Full(s1)), s2);
  }

  /** Once disabled, a camera keeps the state it had, whatever is set. */
  lemma DisabledKeepsState(c: Camera, s1: CameraState, s2: CameraState)
    requires c.enabled
    ensures GetState(SetState(Disable(SetState(c, Full(s1))), Full(s2))) == s1
    ensures GetPreviousState(SetState(Disable(SetState(c, Full(s1))), Full(s2))) == GetState(c)
  {
    SetFullState(c, s1);
  }

  /** Setting the same partial state twice leaves the current state as one
      call did. */
  lemma SetStateIdempotent(c: Camera, p: Partial)
    ensures GetState(SetState(SetState(c, p), p)) == GetState(SetState(c, p))
  {
    if c.enabled {
      MergeIdempotent(c.state, p);
    }
  }

  /** A later `setState` that gives every field an earlier one gave decides
      the current state alone; the earlier call shows only as the previous
      state. */
  lemma SetStateOverride(c: Camera, p: Partial, q: Partial)
    requires c.enabled
    requires Covers(q, p)
    ensures GetState(SetState(SetState(c, p), q)) == GetState(SetState(c, q))
    ensures GetPreviousState(SetState(SetState(c, p), q)) == GetState(SetState(c, p))
  {
    MergeOverride(c.state, p, q);
  }

  /** Disabling and enabling again restores the camera's response to
      `setState`. */
  lemma ReenableRestores(c: Camera, p: Partial)
    requires c.enabled
    ensures SetState(Enable(Disable(c)), p) == SetState(c, p)
  {
  }
}
