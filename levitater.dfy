// The Levitater component of TransformUtilities/Levitater.cs: a two-state machine that
// moves a position back and forth between two endpoints along an axis.
//
// The component's whole state is first described as a value (`LevitaterState`) with
// one function per operation; the class `Levitater` below keeps the same state in
// fields and its methods are proved to update them as those functions say.
module Levitation {
  import opened Vectors

  /** Every field the component reads or writes; `position` is the transform's
    * world position. */
  datatype LevitaterState = LevitaterState(
    position: Vec3,
    levitationRange: real,
    levitationFrequency: real,
    levitationAxis: Vec3,
    initialPosition: Vec3,
    minPos: Vec3,
    maxPos: Vec3,
    levitationSpeed: real,
    movingUp: bool)

  /** Mathf.Abs */
  function Abs(a: real): (r: real)
    ensures r >= 0.0 && (r == a || r == -a)
  {
    if a < 0.0 then -a else a
  }

  /** `+1` while moving up, `-1` while moving down. */
  function Sign(movingUp: bool): real {
    if movingUp then 1.0 else -1.0
  }

  /** A component as the engine creates it: the inspector's settings, the
    * transform's position, every private field at its default value and the
    * direction initially up. */
  function Created(position: Vec3, range: real, frequency: real, axis: Vec3): (r: LevitaterState)
    ensures r.position == position && r.levitationRange == range
    ensures r.levitationFrequency == frequency && r.levitationAxis == axis
    ensures r.levitationSpeed == 0.0 && r.movingUp
    ensures r.initialPosition == r.minPos == r.maxPos == Zero
  {
    LevitaterState(position, range, frequency, axis, Zero, Zero, Zero, 0.0, true)
  }

  /** ResetSettings: records the current position as the start and the lower
    * endpoint, makes the range non-negative, places the upper endpoint one range
    * along the axis and, unless the frequency is zero, derives the speed. The axis
    * is taken to be a unit vector already, so normalising it changes nothing. */
  function Reset(s: LevitaterState): (r: LevitaterState)
    requires IsUnit(s.levitationAxis)
    ensures Configured(r) && r.minPos == s.position
    ensures r.levitationRange == s.levitationRange || r.levitationRange == -s.levitationRange
    ensures r.maxPos == Add(s.position, Scale(r.levitationRange, s.levitationAxis))
    ensures r.position == s.position && r.movingUp == s.movingUp
    ensures r.levitationAxis == s.levitationAxis && r.levitationFrequency == s.levitationFrequency
  {
    var range := Abs(s.levitationRange);
    s.(initialPosition := s.position,
       levitationRange := range,
       minPos := s.position,
       maxPos := Add(s.position, Scale(range, s.levitationAxis)),
       levitationSpeed := if s.levitationFrequency != 0.0 then 2.0 * range / s.levitationFrequency
                          else s.levitationSpeed)
  }

  /** Where the position goes before any endpoint check: `dt * speed * sign` along
    * the axis. */
  function Moved(s: LevitaterState, dt: real): Vec3 {
    Add(s.position, Scale(dt * s.levitationSpeed * Sign(s.movingUp), s.levitationAxis))
  }

  /** FixedUpdate: moves the position; when the moved position has reached or
    * passed the endpoint it is heading for, the direction flips and the position
    * is put exactly on that endpoint. */
  function Step(s: LevitaterState, dt: real): (r: LevitaterState)
    ensures r == s.(position := r.position, movingUp := r.movingUp)
    ensures r.movingUp != s.movingUp ==> r.position == (if s.movingUp then s.maxPos else s.minPos)
    ensures r.movingUp == s.movingUp ==> r.position == Moved(s, dt)
  {
    var moved := Moved(s, dt);
    if s.movingUp && Dot(Sub(s.maxPos, moved), s.levitationAxis) <= 0.0 then
      s.(movingUp := !s.movingUp, position := s.maxPos)
    else if !s.movingUp && Dot(Sub(s.minPos, moved), s.levitationAxis) >= 0.0 then
      s.(movingUp := !s.movingUp, position := s.minPos)
    else
      s.(position := moved)
  }

  /** `n` consecutive fixed updates of `dt` seconds each. */
  function Steps(s: LevitaterState, dt: real, n: nat): LevitaterState {
    if n == 0 then s else Step(Steps(s, dt, n - 1), dt)
  }

  /** OnDisable: puts the transform back where the cycle started. */
  function Restore(s: LevitaterState): (r: LevitaterState)
    ensures r == s.(position := r.position) && r.position == s.initialPosition
  {
    s.(position := s.initialPosition)
  }

  // ---------------------------------------------------------------------------
  // The segment the component moves on

  /** The endpoints as `Reset` leaves them: a unit axis, a non-negative range, the
    * upper endpoint one range along the axis from the lower one, which is the start. */
  predicate Configured(s: LevitaterState) {
    IsUnit(s.levitationAxis) && s.levitationRange >= 0.0 &&
    s.maxPos == Add(s.minPos, Scale(s.levitationRange, s.levitationAxis)) &&
    s.initialPosition == s.minPos
  }

  /** How far along the axis the position is from the lower endpoint. */
  function Offset(s: LevitaterState): real {
    Dot(Sub(s.position, s.minPos), s.levitationAxis)
  }

  /** The position lies on the axis line through the lower endpoint. */
  predicate OnLine(s: LevitaterState) {
    s.position == Add(s.minPos, Scale(Offset(s), s.levitationAxis))
  }

  /** The position lies on the segment from the lower to the upper endpoint. */
  predicate OnSegment(s: LevitaterState) {
    Configured(s) && OnLine(s) && 0.0 <= Offset(s) <= s.levitationRange
  }

  // ---------------------------------------------------------------------------
  // A one-dimensional reference for the step: the offset along the axis and the
  // direction.

  datatype Phase = Phase(offset: real, up: bool)

  /** One step on the interval [0, range], travelling `d` in the current direction
    * and bouncing off whichever end is reached or passed. */
  function PhaseStep(p: Phase, range: real, d: real): Phase {
    if p.up then
      if p.offset + d >= range then Phase(range, false) else Phase(p.offset + d, true)
    else
      if p.offset - d <= 0.0 then Phase(0.0, true) else Phase(p.offset - d, false)
  }

  /** `n` consecutive steps of the reference. */
  function PhaseSteps(p: Phase, range: real, d: real, n: nat): Phase {
    if n == 0 then p else PhaseStep(PhaseSteps(p, range, d, n - 1), range, d)
  }

  /** For a non-negative travel, the reference step never leaves [0, range]. */
  lemma PhaseStepBounded(p: Phase, range: real, d: real)
    requires 0.0 <= p.offset <= range && d >= 0.0
    ensures 0.0 <= PhaseStep(p, range, d).offset <= range
  {
  }

  /** The component `s` with its position put `p.offset` along the axis from the
    * lower endpoint and its direction set to `p.up`. */
  function At(s: LevitaterState, p: Phase): LevitaterState {
    s.(position := Add(s.minPos, Scale(p.offset, s.levitationAxis)), movingUp := p.up)
  }

  // ---------------------------------------------------------------------------
  // Geometry of one step along the axis line

  /** Reading back a point placed `t` along a unit axis gives `t`. */
  lemma OffsetOf(base: Vec3, t: real, u: Vec3)
    requires IsUnit(u)
    ensures Dot(Sub(Add(base, Scale(t, u)), base), u) == t
  {
    AddZeroScale(base, u);
    DotAlongUnit(base, t, 0.0, u);
  }

  /** While rising, the move is `dt * speed` along the axis. */
  lemma MovedUp(s: LevitaterState, dt: real)
    requires s.movingUp
    ensures Moved(s, dt) == Add(s.position, Scale(dt * s.levitationSpeed, s.levitationAxis))
  {
  }

  /** While falling, the move is `dt * speed` against the axis. */
  lemma MovedDown(s: LevitaterState, dt: real)
    requires !s.movingUp
    ensures Moved(s, dt) == Add(s.position, Scale(-(dt * s.levitationSpeed), s.levitationAxis))
  {
  }

  /** Rising from the point `t` along the axis line moves to the point `t + dt * speed`. */
  lemma MovedRising(s: LevitaterState, dt: real, t: real)
    requires s.position == Add(s.minPos, Scale(t, s.levitationAxis)) && s.movingUp
    ensures Moved(s, dt) == Add(s.minPos, Scale(t + dt * s.levitationSpeed, s.levitationAxis))
  {
    MovedUp(s, dt);
    AddScaled(s.minPos, t, dt * s.levitationSpeed, s.levitationAxis, s.position);
  }

  /** Falling from the point `t` along the axis line moves to the point `t - dt * speed`. */
  lemma MovedFalling(s: LevitaterState, dt: real, t: real)
    requires s.position == Add(s.minPos, Scale(t, s.levitationAxis)) && !s.movingUp
    ensures Moved(s, dt) == Add(s.minPos, Scale(t - dt * s.levitationSpeed, s.levitationAxis))
  {
    MovedDown(s, dt);
    AddScaled(s.minPos, t, -(dt * s.levitationSpeed), s.levitationAxis, s.position);
  }

  /** Seen from the point `t` along a unit axis, the upper endpoint lies `range - t` further on. */
  lemma GapToMax(s: LevitaterState, at: Vec3, t: real)
    requires IsUnit(s.levitationAxis)
    requires s.maxPos == Add(s.minPos, Scale(s.levitationRange, s.levitationAxis))
    requires at == Add(s.minPos, Scale(t, s.levitationAxis))
    ensures Dot(Sub(s.maxPos, at), s.levitationAxis) == s.levitationRange - t
  {
    DotAlongUnit(s.minPos, s.levitationRange, t, s.levitationAxis);
  }

  /** Seen from the point `t` along a unit axis, the lower endpoint lies `t` back. */
  lemma GapToMin(s: LevitaterState, at: Vec3, t: real)
    requires IsUnit(s.levitationAxis)
    requires at == Add(s.minPos, Scale(t, s.levitationAxis))
    ensures Dot(Sub(s.minPos, at), s.levitationAxis) == -t
  {
    AddZeroScale(s.minPos, s.levitationAxis);
    DotAlongUnit(s.minPos, 0.0, t, s.levitationAxis);
  }

  /** Rising with the upper endpoint still ahead of the moved position, the step
    * just moves. */
  lemma KeepsRising(s: LevitaterState, dt: real)
    requires s.movingUp && Dot(Sub(s.maxPos, Moved(s, dt)), s.levitationAxis) > 0.0
    ensures Step(s, dt) == s.(position := Moved(s, dt))
  {
  }

  /** Rising with the upper endpoint reached or passed, the step turns round on it. */
  lemma TurnsAtTop(s: LevitaterState, dt: real)
    requires s.movingUp && Dot(Sub(s.maxPos, Moved(s, dt)), s.levitationAxis) <= 0.0
    ensures Step(s, dt) == s.(position := s.maxPos, movingUp := false)
  {
  }

  /** Falling with the lower endpoint still ahead of the moved position, the step
    * just moves. */
  lemma KeepsFalling(s: LevitaterState, dt: real)
    requires !s.movingUp && Dot(Sub(s.minPos, Moved(s, dt)), s.levitationAxis) < 0.0
    ensures Step(s, dt) == s.(position := Moved(s, dt))
  {
  }

  /** Falling with the lower endpoint reached or passed, the step turns round on it. */
  lemma TurnsAtBottom(s: LevitaterState, dt: real)
    requires !s.movingUp && Dot(Sub(s.minPos, Moved(s, dt)), s.levitationAxis) >= 0.0
    ensures Step(s, dt) == s.(position := s.minPos, movingUp := true)
  {
  }

  /** Rising from the point `t` along the axis line and stopping short of the
    * upper endpoint, the step moves to the point `t + dt * speed`. */
  lemma RisingFrom(s: LevitaterState, dt: real, t: real)
    requires IsUnit(s.levitationAxis)
    requires s.maxPos == Add(s.minPos, Scale(s.levitationRange, s.levitationAxis))
    requires s.position == Add(s.minPos, Scale(t, s.levitationAxis)) && s.movingUp
    requires t + dt * s.levitationSpeed < s.levitationRange
    ensures Step(s, dt) == s.(position := Add(s.minPos, Scale(t + dt * s.levitationSpeed, s.levitationAxis)))
  {
    MovedRising(s, dt, t);
    GapToMax(s, Moved(s, dt), t + dt * s.levitationSpeed);
    KeepsRising(s, dt);
  }

  /** Rising from the point `t` along the axis line and reaching or passing the
    * upper endpoint, the step turns round on it. */
  lemma ToppingFrom(s: LevitaterState, dt: real, t: real)
    requires IsUnit(s.levitationAxis)
    requires s.maxPos == Add(s.minPos, Scale(s.levitationRange, s.levitationAxis))
    requires s.position == Add(s.minPos, Scale(t, s.levitationAxis)) && s.movingUp
    requires t + dt * s.levitationSpeed >= s.levitationRange
    ensures Step(s, dt) == s.(position := s.maxPos, movingUp := false)
  {
    MovedRising(s, dt, t);
    GapToMax(s, Moved(s, dt), t + dt * s.levitationSpeed);
    TurnsAtTop(s, dt);
  }

  /** One update while rising that stops short of the upper endpoint. */
  lemma RisingAt(s: LevitaterState, p: Phase, dt: real)
    requires IsUnit(s.levitationAxis)
    requires s.maxPos == Add(s.minPos, Scale(s.levitationRange, s.levitationAxis))
    requires p.up && p.offset + dt * s.levitationSpeed < s.levitationRange
    ensures Step(At(s, p), dt) == At(s, Phase(p.offset + dt * s.levitationSpeed, true))
  {
    RisingFrom(At(s, p), dt, p.offset);
  }

  /** One update while rising that reaches or passes the upper endpoint. */
  lemma TopAt(s: LevitaterState, p: Phase, dt: real)
    requires IsUnit(s.levitationAxis)
    requires s.maxPos == Add(s.minPos, Scale(s.levitationRange, s.levitationAxis))
    requires p.up && p.offset + dt * s.levitationSpeed >= s.levitationRange
    ensures Step(At(s, p), dt) == At(s, Phase(s.levitationRange, false))
  {
    ToppingFrom(At(s, p), dt, p.offset);
  }

  /** One update while falling that stops short of the lower endpoint. */
  lemma FallingAt(s: LevitaterState, p: Phase, dt: real)
    requires IsUnit(s.levitationAxis)
    requires !p.up && p.offset - dt * s.levitationSpeed > 0.0
    ensures Step(At(s, p), dt) == At(s, Phase(p.offset - dt * s.levitationSpeed, false))
  {
    var q, t' := At(s, p), p.offset - dt * s.levitationSpeed;
    MovedFalling(q, dt, p.offset);
    GapToMin(q, Moved(q, dt), t');
    KeepsFalling(q, dt);
  }

  /** One update while falling that reaches or passes the lower endpoint. */
  lemma BottomAt(s: LevitaterState, p: Phase, dt: real)
    requires IsUnit(s.levitationAxis)
    requires !p.up && p.offset - dt * s.levitationSpeed <= 0.0
    ensures Step(At(s, p), dt) == At(s, Phase(0.0, true))
  {
    var q, t' := At(s, p), p.offset - dt * s.levitationSpeed;
    MovedFalling(q, dt, p.offset);
    GapToMin(q, Moved(q, dt), t');
    TurnsAtBottom(q, dt);
    AddZeroScale(s.minPos, s.levitationAxis);
  }

  /** On the axis line, a fixed update is exactly a step of the one-dimensional
    * reference with a travel of `dt * speed`: the new position is the point of the
    * line at the reference's new offset, the new direction is the reference's, and
    * nothing else changes. */
  lemma StepAt(s: LevitaterState, p: Phase, dt: real)
    requires IsUnit(s.levitationAxis)
    requires s.maxPos == Add(s.minPos, Scale(s.levitationRange, s.levitationAxis))
    ensures Step(At(s, p), dt) == At(s, PhaseStep(p, s.levitationRange, dt * s.levitationSpeed))
  {
    var d := dt * s.levitationSpeed;
    if p.up {
      if p.offset + d >= s.levitationRange { TopAt(s, p, dt); } else { RisingAt(s, p, dt); }
    } else {
      if p.offset - d <= 0.0 { BottomAt(s, p, dt); } else { FallingAt(s, p, dt); }
    }
  }

  /** `n` fixed updates follow `n` steps of the reference. */
  lemma {:induction false} StepsAt(s: LevitaterState, p: Phase, dt: real, n: nat)
    requires IsUnit(s.levitationAxis)
    requires s.maxPos == Add(s.minPos, Scale(s.levitationRange, s.levitationAxis))
    ensures Steps(At(s, p), dt, n) == At(s, PhaseSteps(p, s.levitationRange, dt * s.levitationSpeed, n))
  {
    if n > 0 {
      StepsAt(s, p, dt, n - 1);
      StepAt(s, PhaseSteps(p, s.levitationRange, dt * s.levitationSpeed, n - 1), dt);
    }
  }

  /** A state on the axis line is the state placed at its own offset. */
  lemma OnLineIsAt(s: LevitaterState)
    requires OnLine(s)
    ensures s == At(s, Phase(Offset(s), s.movingUp))
  {
  }

  /** Placed at an offset in [0, range], the position is on the segment and reads
    * back that offset. */
  lemma AtOnSegment(s: LevitaterState, p: Phase)
    requires Configured(s) && 0.0 <= p.offset <= s.levitationRange
    ensures OnSegment(At(s, p)) && Offset(At(s, p)) == p.offset
  {
    OffsetOf(s.minPos, p.offset, s.levitationAxis);
  }

  // ---------------------------------------------------------------------------
  // Properties of one step

  /** The bounds invariant: with a unit axis, a non-negative time step and a
    * non-negative speed, a position on the segment stays on it after a step. */
  lemma StepStaysOnSegment(s: LevitaterState, dt: real)
    requires OnSegment(s) && dt >= 0.0 && s.levitationSpeed >= 0.0
    ensures OnSegment(Step(s, dt))
  {
    var p := Phase(Offset(s), s.movingUp);
    OnLineIsAt(s);
    StepAt(s, p, dt);
    PhaseStepBounded(p, s.levitationRange, dt * s.levitationSpeed);
    AtOnSegment(s, PhaseStep(p, s.levitationRange, dt * s.levitationSpeed));
  }

  /** On the segment, a step while heading up flips exactly when the offset plus
    * the travel reaches the range, and a step while heading down flips exactly
    * when the offset minus the travel reaches zero. */
  lemma StepFlipsIffEndpointReached(s: LevitaterState, dt: real)
    requires OnSegment(s)
    ensures s.movingUp ==>
      (!Step(s, dt).movingUp <==> Offset(s) + dt * s.levitationSpeed >= s.levitationRange)
    ensures !s.movingUp ==>
      (Step(s, dt).movingUp <==> Offset(s) - dt * s.levitationSpeed <= 0.0)
  {
    OnLineIsAt(s);
    StepAt(s, Phase(Offset(s), s.movingUp), dt);
  }

  // ---------------------------------------------------------------------------
  // Reset, OnDisable and the setters

  /** With a non-zero frequency the speed covers twice the range per `frequency`
    * seconds; with a zero frequency nothing is divided and the speed is kept. */
  lemma ResetSpeed(s: LevitaterState)
    requires IsUnit(s.levitationAxis)
    ensures var r := Reset(s);
      (s.levitationFrequency != 0.0 ==> r.levitationSpeed * s.levitationFrequency == 2.0 * r.levitationRange) &&
      (s.levitationFrequency == 0.0 ==> r.levitationSpeed == s.levitationSpeed) &&
      (s.levitationFrequency > 0.0 ==> r.levitationSpeed >= 0.0)
  {
    var range := Abs(s.levitationRange);
    if s.levitationFrequency != 0.0 {
      var f := s.levitationFrequency;
      assert 2.0 * range / f * f == 2.0 * range;
      if f > 0.0 {
        PositiveQuotient(2.0 * range, f);
      }
    }
  }

  /** A non-negative number divided by a positive one is non-negative. */
  lemma PositiveQuotient(a: real, b: real)
    requires a >= 0.0 && b > 0.0
    ensures a / b >= 0.0
  {
  }

  /** After Reset the position is on its own fresh segment, at its lower end. */
  lemma ResetStartsAtLowerEnd(s: LevitaterState)
    requires IsUnit(s.levitationAxis)
    ensures OnSegment(Reset(s)) && Offset(Reset(s)) == 0.0
  {
    var r := Reset(s);
    AddZeroScale(s.position, s.levitationAxis);
    OffsetOf(s.position, 0.0, s.levitationAxis);
    assert r.position == Add(r.minPos, Scale(0.0, r.levitationAxis));
  }

  /** A component that has never set its speed and has a zero frequency does not
    * move at all after being enabled. */
  lemma ZeroFrequencyStandsStill(position: Vec3, range: real, axis: Vec3, dt: real)
    requires IsUnit(axis)
    ensures var r := Reset(Created(position, range, 0.0, axis));
      r.levitationSpeed == 0.0 && Step(r, dt).position == position
  {
    var r := Reset(Created(position, range, 0.0, axis));
    var moved := Add(r.position, Scale(dt * 0.0 * Sign(r.movingUp), axis));
    assert moved == position;
    OffsetOf(position, Abs(range), axis);
    AddZeroScale(position, axis);
    if Abs(range) == 0.0 {
      assert r.maxPos == position;
    } else {
      assert Dot(Sub(r.maxPos, moved), axis) == Abs(range);
    }
  }

  /** OnDisable puts the position back on the start, whichever way it was moving;
    * after a Reset that is the lower endpoint. */
  lemma RestoreReturnsToStart(s: LevitaterState)
    requires Configured(s)
    ensures var r := Restore(s);
      r.position == s.minPos && r.movingUp == s.movingUp && OnSegment(r) && Offset(r) == 0.0
  {
    AddZeroScale(s.minPos, s.levitationAxis);
    OffsetOf(s.minPos, 0.0, s.levitationAxis);
  }

  /** UpdateLevitationRange rebuilds both endpoints from the current, possibly
    * mid-cycle, position, stores the new range as its magnitude and keeps the
    * current direction. */
  lemma RangeSetterRebuilds(s: LevitaterState, newRange: real)
    requires IsUnit(s.levitationAxis)
    ensures var r := Reset(s.(levitationRange := newRange));
      r.minPos == s.position && r.levitationRange == Abs(newRange) && r.movingUp == s.movingUp && OnSegment(r)
  {
    ResetStartsAtLowerEnd(s.(levitationRange := newRange));
  }

  /** UpdateLevitationFrequency rebuilds both endpoints from the current position,
    * stores the new frequency and keeps the current direction. */
  lemma FrequencySetterRebuilds(s: LevitaterState, newFrequency: real)
    requires IsUnit(s.levitationAxis)
    ensures var r := Reset(s.(levitationFrequency := newFrequency));
      r.minPos == s.position && r.levitationFrequency == newFrequency && r.movingUp == s.movingUp && OnSegment(r)
  {
    ResetStartsAtLowerEnd(s.(levitationFrequency := newFrequency));
  }

  /** UpdateLevitationAxis rebuilds both endpoints from the current position along
    * the new axis and keeps the current direction. */
  lemma AxisSetterRebuilds(s: LevitaterState, newAxis: Vec3)
    requires IsUnit(newAxis)
    ensures var r := Reset(s.(levitationAxis := newAxis));
      r.minPos == s.position && r.maxPos == Add(s.position, Scale(r.levitationRange, newAxis)) &&
      r.movingUp == s.movingUp && OnSegment(r)
  {
    ResetStartsAtLowerEnd(s.(levitationAxis := newAxis));
  }

  // ---------------------------------------------------------------------------
  // Whole cycles

  /** The distance covered by `n` travels of length `d`. */
  function Travelled(n: nat, d: real): real {
    if n == 0 then 0.0 else Travelled(n - 1, d) + d
  }

  /** `n` travels of `d` cover `n * d`. */
  lemma {:induction false} TravelledIsProduct(n: nat, d: real)
    ensures Travelled(n, d) == n as real * d
  {
    if n > 0 {
      TravelledIsProduct(n - 1, d);
    }
  }

  /** Fewer travels of a positive length cover strictly less. */
  lemma {:induction false} TravelledGrows(n: nat, k: nat, d: real)
    requires n < k && d > 0.0
    ensures Travelled(n, d) < Travelled(k, d)
  {
    if n < k - 1 {
      TravelledGrows(n, k - 1, d);
    }
  }

  /** On a range of exactly `k` travels, rising from 0 for `n <= k` steps reaches
    * `n` travels, turning round at the `k`-th. */
  lemma {:induction false} PhaseRising(range: real, d: real, k: nat, n: nat)
    requires d > 0.0 && range == Travelled(k, d) && 0 < k && n <= k
    ensures PhaseSteps(Phase(0.0, true), range, d, n) ==
      if n < k then Phase(Travelled(n, d), true) else Phase(range, false)
  {
    if n > 0 {
      PhaseRising(range, d, k, n - 1);
      if n < k {
        TravelledGrows(n, k, d);
      }
    }
  }

  /** Falling from the top of a range of exactly `k` travels for `n <= k` steps
    * comes down `n` travels, turning round at the `k`-th. */
  lemma {:induction false} PhaseFalling(range: real, d: real, k: nat, n: nat)
    requires d > 0.0 && range == Travelled(k, d) && 0 < k && n <= k
    ensures PhaseSteps(Phase(range, false), range, d, n) ==
      if n < k then Phase(range - Travelled(n, d), false) else Phase(0.0, true)
  {
    if n > 0 {
      PhaseFalling(range, d, k, n - 1);
      if n < k {
        TravelledGrows(n, k, d);
      }
    }
  }

  /** `m` reference steps followed by `n` more are `m + n` steps. */
  lemma {:induction false} PhaseStepsAdd(p: Phase, range: real, d: real, m: nat, n: nat)
    ensures PhaseSteps(PhaseSteps(p, range, d, m), range, d, n) == PhaseSteps(p, range, d, m + n)
  {
    if n > 0 {
      PhaseStepsAdd(p, range, d, m, n - 1);
    }
  }

  /** A whole cycle: when the range is exactly `k` travels of `dt * speed`, `k`
    * updates take the position from the lower endpoint exactly onto the upper one
    * and turn it round, and `k` more bring the component back to the state it
    * started in. */
  lemma FullCycle(s: LevitaterState, dt: real, k: nat)
    requires Configured(s) && s.position == s.minPos && s.movingUp
    requires dt * s.levitationSpeed > 0.0 && s.levitationRange == Travelled(k, dt * s.levitationSpeed)
    requires k > 0
    ensures Steps(s, dt, k) == s.(position := s.maxPos, movingUp := false)
    ensures Steps(s, dt, 2 * k) == s
  {
    var d, range := dt * s.levitationSpeed, s.levitationRange;
    PhaseRising(range, d, k, k);
    PhaseFalling(range, d, k, k);
    PhaseStepsAdd(Phase(0.0, true), range, d, k, k);
    AddZeroScale(s.minPos, s.levitationAxis);
    assert s == At(s, Phase(0.0, true));
    StepsAt(s, Phase(0.0, true), dt, k);
    StepsAt(s, Phase(0.0, true), dt, 2 * k);
  }

  /** With the speed `Reset` derives, a cycle takes `frequency` seconds: updates of
    * `frequency / (2 * k)` seconds reach the upper endpoint after `k` of them and
    * are back at the start after `2 * k`. */
  lemma CycleLastsFrequencySeconds(s: LevitaterState, k: nat)
    requires IsUnit(s.levitationAxis) && s.levitationFrequency > 0.0 && s.levitationRange != 0.0
    requires s.movingUp && k > 0
    ensures var r := Reset(s);
      var dt := s.levitationFrequency / (2 * k) as real;
      Steps(r, dt, k).position == r.maxPos && Steps(r, dt, 2 * k) == r
  {
    var r := Reset(s);
    var f := s.levitationFrequency;
    var dt := f / (2 * k) as real;
    ResetStartsAtLowerEnd(s);
    TravelPerUpdate(f, Abs(s.levitationRange), k);
    TravelledIsProduct(k, dt * r.levitationSpeed);
    FullCycle(r, dt, k);
  }

  /** A reset while heading down leaves the component on the lower endpoint still
    * heading down, so the first update only turns it round there. */
  lemma DownResetWastesUpdate(s: LevitaterState, dt: real)
    requires IsUnit(s.levitationAxis) && !s.movingUp && dt >= 0.0 && Reset(s).levitationSpeed >= 0.0
    ensures Step(Reset(s), dt) == Reset(s).(movingUp := true)
  {
    var r := Reset(s);
    ResetStartsAtLowerEnd(s);
    OnLineIsAt(r);
    StepAt(r, Phase(0.0, false), dt);
    AddZeroScale(r.minPos, r.levitationAxis);
  }

  /** The first of `n + 1` updates comes first. */
  lemma {:induction false} StepsFirst(s: LevitaterState, dt: real, n: nat)
    ensures Steps(s, dt, n + 1) == Steps(Step(s, dt), dt, n)
  {
    if n > 0 {
      StepsFirst(s, dt, n - 1);
    }
  }

  /** After a reset while heading down, the cycle of `frequency` seconds starts one
    * update late: updates of `frequency / (2 * k)` seconds reach the upper endpoint
    * after `k + 1` of them and are back at the start, heading up, after `2 * k + 1`. */
  lemma CycleAfterDownReset(s: LevitaterState, k: nat)
    requires IsUnit(s.levitationAxis) && s.levitationFrequency > 0.0 && s.levitationRange != 0.0
    requires !s.movingUp && k > 0
    ensures var r := Reset(s);
      var dt := s.levitationFrequency / (2 * k) as real;
      Steps(r, dt, 1) == r.(movingUp := true) && Steps(r, dt, 1).position != r.maxPos
    ensures var r := Reset(s);
      var dt := s.levitationFrequency / (2 * k) as real;
      Steps(r, dt, k + 1).position == r.maxPos && Steps(r, dt, 2 * k + 1) == r.(movingUp := true)
  {
    var r, up := Reset(s), s.(movingUp := true);
    var dt := s.levitationFrequency / (2 * k) as real;
    PositiveQuotient(s.levitationFrequency, (2 * k) as real);
    ResetSpeed(s);
    DownResetWastesUpdate(s, dt);
    assert Reset(up) == r.(movingUp := true);
    CycleLastsFrequencySeconds(up, k);
    StepsFirst(r, dt, k);
    StepsFirst(r, dt, 2 * k);
    StepsFirst(r, dt, 0);
    OffsetOf(r.position, r.levitationRange, r.levitationAxis);
  }

  /** Updates of `f / (2k)` seconds at speed `2 * range / f` travel `range / k` each. */
  lemma TravelPerUpdate(f: real, range: real, k: nat)
    requires f > 0.0 && range > 0.0 && k > 0
    ensures var d := f / (2 * k) as real * (2.0 * range / f);
      d > 0.0 && range == k as real * d
  {
    var kr := k as real;
    assert (2 * k) as real == 2.0 * kr;
    var d := f / (2.0 * kr) * (2.0 * range / f);
    assert d == range / kr;
    assert kr * (range / kr) == range;
  }

  // ---------------------------------------------------------------------------
  // The component itself

  /** The Levitater MonoBehaviour. Unity's transform becomes the `position` field,
    * `Time.fixedDeltaTime` the `dt` parameter of FixedUpdate, and the engine's
    * callbacks explicit method calls. */
  class Levitater {
    var position: Vec3
    var levitationRange: real
    var levitationFrequency: real
    var levitationAxis: Vec3
    var initialPosition: Vec3
    var minPos: Vec3
    var maxPos: Vec3
    var levitationSpeed: real
    var movingUp: bool

    /** The fields, read as one value. */
    function State(): LevitaterState
      reads this
    {
      LevitaterState(position, levitationRange, levitationFrequency, levitationAxis,
                     initialPosition, minPos, maxPos, levitationSpeed, movingUp)
    }

    /** The axis is kept a unit vector. */
    predicate Valid()
      reads this
    {
      IsUnit(levitationAxis)
    }

    /** The component as the engine creates it, see `Created`. */
    constructor (position: Vec3, range: real, frequency: real, axis: Vec3)
      requires IsUnit(axis)
      ensures Valid() && State() == Created(position, range, frequency, axis)
    {
      this.position := position;
      levitationRange, levitationFrequency, levitationAxis := range, frequency, axis;
      initialPosition, minPos, maxPos := Zero, Zero, Zero;
      levitationSpeed := 0.0;
      movingUp := true;
    }

    method ResetSettings()
      requires Valid()
      modifies this
      ensures Valid() && State() == Reset(old(State()))
      ensures OnSegment(State()) && minPos == old(position) && movingUp == old(movingUp)
    {
      initialPosition := position;
      levitationRange := Abs(levitationRange);
      minPos := initialPosition;
      maxPos := Add(initialPosition, Scale(levitationRange, levitationAxis));
      if levitationFrequency != 0.0 {
        levitationSpeed := 2.0 * levitationRange / levitationFrequency;
      }
      ResetStartsAtLowerEnd(old(State()));
    }

    method OnEnable()
      requires Valid()
      modifies this
      ensures Valid() && State() == Reset(old(State()))
    {
      ResetSettings();
    }

    method OnDisable()
      modifies this`position
      ensures State() == Restore(old(State()))
      ensures position == initialPosition && movingUp == old(movingUp)
    {
      position := initialPosition;
    }

    method FixedUpdate(dt: real)
      modifies this`position, this`movingUp
      ensures State() == Step(old(State()), dt)
      ensures old(OnSegment(State())) && dt >= 0.0 && levitationSpeed >= 0.0 ==> OnSegment(State())
    {
      ghost var before := State();
      position := Add(position, Scale(dt * levitationSpeed * Sign(movingUp), levitationAxis));
      var current := position;
      assert current == Moved(before, dt);
      if movingUp && Dot(Sub(maxPos, current), levitationAxis) <= 0.0 {
        movingUp := !movingUp;
        position := maxPos;
      } else if !movingUp && Dot(Sub(minPos, current), levitationAxis) >= 0.0 {
        movingUp := !movingUp;
        position := minPos;
      }
      assert State() == Step(before, dt);
      if OnSegment(before) && dt >= 0.0 && levitationSpeed >= 0.0 {
        StepStaysOnSegment(before, dt);
      }
    }

    method UpdateLevitationRange(newRange: real)
      requires Valid()
      modifies this
      ensures Valid() && State() == Reset(old(State()).(levitationRange := newRange))
    {
      levitationRange := newRange;
      ResetSettings();
    }

    method UpdateLevitationFrequency(newFrequency: real)
      requires Valid()
      modifies this
      ensures Valid() && State() == Reset(old(State()).(levitationFrequency := newFrequency))
    {
      levitationFrequency := newFrequency;
      ResetSettings();
    }

    method UpdateLevitationAxis(newAxis: Vec3)
      requires IsUnit(newAxis)
      modifies this
      ensures Valid() && State() == Reset(old(State()).(levitationAxis := newAxis))
    {
      levitationAxis := newAxis;
      ResetSettings();
    }
  }
}
