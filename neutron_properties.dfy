/**
 * What one step of the walk guarantees, stated over the specification
 * functions of `NeutronModel` that the `Neutron` methods are proved to
 * follow.
 */
module NeutronProperties {
  import opened Numerics
  import opened CreatingDistribution
  import opened NeutronModel

  // ---------------------------------------------------------------------
  // Speed
  // ---------------------------------------------------------------------

  /** A 1 eV neutron travels at 1.38e6 cm/s. */
  lemma EnergySpeedAtOne(m: Maths)
    requires m.Lawful()
    ensures EnergySpeed(m, 1.0) == 1.38e6
  {
    SqrtOne(m);
  }

  /** Speed squared is proportional to energy: ½mv² with the constant folded in. */
  lemma EnergySpeedSquared(m: Maths, energy: real)
    requires m.Lawful() && 0.0 <= energy
    ensures EnergySpeed(m, energy) * EnergySpeed(m, energy) == SpeedConstant * SpeedConstant * energy
  {
    var r := m.sqrt(energy);
    assert r * r == energy;
    assert (SpeedConstant * r) * (SpeedConstant * r) == SpeedConstant * SpeedConstant * (r * r);
  }

  /** A more energetic neutron is faster. */
  lemma EnergySpeedIncreasing(m: Maths, e1: real, e2: real)
    requires m.Lawful() && 0.0 <= e1 < e2
    ensures 0.0 <= EnergySpeed(m, e1) < EnergySpeed(m, e2)
  {
    var r1, r2 := m.sqrt(e1), m.sqrt(e2);
    assert 0.0 <= r1 && r1 * r1 == e1;
    assert 0.0 <= r2 && r2 * r2 == e2;
    if r2 <= r1 {
      SquareMonotone(r2, r1);
      assert false;
    }
    MulStrict(SpeedConstant, r1, r2);
    MulMonotone(SpeedConstant, 0.0, r1);
  }

  lemma SquareMonotone(a: real, b: real)
    requires 0.0 <= a <= b
    ensures a * a <= b * b
  {
    MulMonotone(a, a, b);
    MulMonotone(b, a, b);
  }

  // ---------------------------------------------------------------------
  // Placement
  // ---------------------------------------------------------------------

  /** Unit draws place a neutron inside the reactor's rectangle, as its only history point. */
  lemma PlacedInside(s: NeutronState, dimensionX: real, dimensionY: real, draw: Vec)
    requires 0.0 < dimensionX && 0.0 < dimensionY
    requires 0.0 <= draw.x < 1.0 && 0.0 <= draw.y < 1.0
    ensures var r := Placed(s, UniformPoint(dimensionX, dimensionY, draw));
      0.0 <= r.pos.x < dimensionX && 0.0 <= r.pos.y < dimensionY &&
      r.posDataX == [r.pos.x] && r.posDataY == [r.pos.y] &&
      r.(pos := s.pos, posDataX := s.posDataX, posDataY := s.posDataY) == s
  {
    var p := UniformPoint(dimensionX, dimensionY, draw);
    UnitScale(draw.x, dimensionX);
    UnitScale(draw.y, dimensionY);
    assert p.x == draw.x * dimensionX && p.y == draw.y * dimensionY;
  }

  /** A unit draw scales a positive extent to a point of [0, extent). */
  lemma UnitScale(u: real, extent: real)
    requires 0.0 <= u < 1.0 && 0.0 < extent
    ensures 0.0 <= u * extent < extent
  {
    MulStrict(extent, u, 1.0);
    MulMonotone(extent, 0.0, u);
  }

  // ---------------------------------------------------------------------
  // The two branches of a step
  // ---------------------------------------------------------------------

  /** At or below the cut-off a step only absorbs the neutron: no move, no history, no event. */
  lemma SubThresholdAbsorbs(s: NeutronState, d: StepDraws, t: Tables, m: Maths)
    requires t.Valid() && m.Lawful() && d.InRange()
    requires s.energy <= AbsorptionThreshold
    ensures var r := Stepped(s, d, t, m);
      r.absorbed && r.(absorbed := s.absorbed) == s
  {
  }

  /**
   * Above the cut-off a step counts one event, records the event selected
   * at the pre-step energy, appends the new position to each position
   * history and the pre-step energy to the energy history, and leaves the
   * speed of the pre-step energy and the flight length drawn.
   */
  lemma StepRecordsOneEntry(s: NeutronState, d: StepDraws, t: Tables, m: Maths)
    requires t.Valid() && m.Lawful() && d.InRange()
    requires AbsorptionThreshold < s.energy
    ensures var r := Stepped(s, d, t, m);
      r.eventCount == s.eventCount + 1 &&
      r.eventType == Some(EventAt(t, s.energy, d.num)) &&
      r.posDataX == s.posDataX + [r.pos.x] && r.posDataY == s.posDataY + [r.pos.y] &&
      r.energyData == s.energyData + [s.energy] &&
      r.speed == EnergySpeed(m, s.energy) && r.sample == d.sample
  {
    EnergySpeedPositive(m, s.energy);
    EventKeepsFlight(Moved(s, d, m), d, t, m);
  }

  /** The event phase changes neither position, velocity, histories, time, speed nor flight length. */
  lemma EventKeepsFlight(s: NeutronState, d: StepDraws, t: Tables, m: Maths)
    requires t.Valid() && d.InRange()
    ensures var r := AfterChoose(s, d, t, m);
      r.pos == s.pos && r.vel == s.vel && r.time == s.time && r.speed == s.speed &&
      r.sample == s.sample && r.posDataX == s.posDataX && r.posDataY == s.posDataY &&
      r.energyData == s.energyData
  {
  }

  /** A step above the threshold takes its position, velocity, speed and clock from the flight alone. */
  lemma SteppedFlight(s: NeutronState, d: StepDraws, t: Tables, m: Maths)
    requires t.Valid() && m.Lawful() && d.InRange()
    requires AbsorptionThreshold < s.energy
    ensures 0.0 < EnergySpeed(m, s.energy)
    ensures var r, f := Stepped(s, d, t, m), Moved(s, d, m);
      r.pos == f.pos && r.vel == f.vel && r.speed == f.speed && r.time == f.time
  {
    EnergySpeedPositive(m, s.energy);
    SteppedAbove(s, d, t, m);
    EventKeepsFlight(Moved(s, d, m), d, t, m);
  }

  /**
   * The flight moves the neutron `sample` along the step's direction, which
   * is the angle left by a preceding uranium scatter and the fresh draw
   * otherwise; `UnitCircleScale` then gives the distance covered as `sample`.
   */
  lemma FlightDisplacement(s: NeutronState, d: StepDraws, m: Maths)
    requires 0.0 < EnergySpeed(m, s.energy)
    ensures var r := Moved(s, d, m);
      var a := if s.eventType == Some(ScatterU) then s.angle else d.direction;
      var dx, dy := r.pos.x - s.pos.x, r.pos.y - s.pos.y;
      dx == d.sample * m.cos(a) && dy == d.sample * m.sin(a)
  {
  }

  /** The velocity points along the step's direction and has the speed of the pre-step energy. */
  lemma FlightVelocity(s: NeutronState, d: StepDraws, m: Maths)
    requires m.Lawful() && 0.0 < EnergySpeed(m, s.energy)
    ensures var r := Moved(s, d, m);
      var a := if s.eventType == Some(ScatterU) then s.angle else d.direction;
      r.speed == EnergySpeed(m, s.energy) &&
      r.vel == Vec(r.speed * m.cos(a), r.speed * m.sin(a)) &&
      r.vel.x * r.vel.x + r.vel.y * r.vel.y == r.speed * r.speed
  {
    UnitCircleScale(m, StepAngle(s, d), EnergySpeed(m, s.energy));
  }

  /** The clock advances by the flight time `sample / speed`, never backwards. */
  lemma FlightClock(s: NeutronState, d: StepDraws, m: Maths)
    requires 0.0 < EnergySpeed(m, s.energy) && 0.0 <= d.sample
    ensures var r := Moved(s, d, m);
      r.time == s.time + d.sample / r.speed && s.time <= r.time
  {
    NonNegativeQuotient(d.sample, EnergySpeed(m, s.energy));
  }

  /** A vector of length `k` along angle `a` has squared length k². */
  lemma UnitCircleScale(m: Maths, a: real, k: real)
    requires m.Lawful()
    ensures (k * m.cos(a)) * (k * m.cos(a)) + (k * m.sin(a)) * (k * m.sin(a)) == k * k
  {
    var c, s := m.cos(a), m.sin(a);
    assert c * c + s * s == 1.0;
    assert (k * c) * (k * c) + (k * s) * (k * s) == (k * k) * (c * c + s * s);
  }

  lemma NonNegativeQuotient(a: real, b: real)
    requires 0.0 <= a && 0.0 < b
    ensures 0.0 <= a / b
  {
  }

  /**
   * The angle drawn by a uranium scatter is the direction of the next
   * flight, and it stays the neutron's angle after the next step unless
   * that step scatters off uranium again.
   */
  lemma ScatterAngleSteersNextFlight(s: NeutronState, d1: StepDraws, d2: StepDraws, t: Tables, m: Maths)
    requires t.Valid() && m.Lawful() && d1.InRange() && d2.InRange()
    requires AbsorptionThreshold < s.energy && EventAt(t, s.energy, d1.num) == ScatterU
    ensures var r1 := Stepped(s, d1, t, m);
      r1.eventType == Some(ScatterU) && r1.angle == d1.scatterAngle && StepAngle(r1, d2) == d1.scatterAngle
    ensures var r1 := Stepped(s, d1, t, m);
      var r2 := Stepped(r1, d2, t, m);
      r2.angle == d1.scatterAngle || EventAt(t, r1.energy, d2.num) == ScatterU
  {
    EnergySpeedPositive(m, s.energy);
    var r1 := Stepped(s, d1, t, m);
    assert r1.eventType == Some(ScatterU) && r1.angle == d1.scatterAngle;
    if AbsorptionThreshold < r1.energy {
      EnergySpeedPositive(m, r1.energy);
    }
  }

  /** After a uranium scatter the next step does not depend on the fresh direction it draws. */
  lemma DirectionUnusedAfterScatterU(s: NeutronState, d: StepDraws, t: Tables, m: Maths)
    requires t.Valid() && m.Lawful() && d.InRange() && s.eventType == Some(ScatterU)
    ensures forall direction :: Stepped(s, d.(direction := direction), t, m) == Stepped(s, d, t, m)
  {
    forall direction
      ensures Stepped(s, d.(direction := direction), t, m) == Stepped(s, d, t, m)
    {
      var e := d.(direction := direction);
      if AbsorptionThreshold < s.energy {
        EnergySpeedPositive(m, s.energy);
        assert Moved(s, e, m) == Moved(s, d, m);
      }
    }
  }

  /** After any other event, or none, a step flies along its own fresh draw. */
  lemma FreshDirectionOtherwise(s: NeutronState, d: StepDraws, m: Maths)
    requires m.Lawful() && AbsorptionThreshold < s.energy && s.eventType != Some(ScatterU)
    ensures Moved(s, d, m).angle == d.direction
  {
    EnergySpeedPositive(m, s.energy);
  }

  // ---------------------------------------------------------------------
  // Event selection
  // ---------------------------------------------------------------------

  /**
   * With a selector in [0, 1), non-negative fission, capture and uranium
   * scattering values and a positive total, each event is selected exactly
   * on its own interval: [0, F/Σ), [F/Σ, (F+C)/Σ), [(F+C)/Σ, (F+C+S)/Σ),
   * and everything from (F+C+S)/Σ on, with Σ = T + H.
   */
  lemma SelectEventIntervals(num: real, F: real, C: real, S: real, T: real, H: real)
    requires 0.0 <= num < 1.0 && 0.0 <= F && 0.0 <= C && 0.0 <= S && 0.0 < T + H
    ensures var total := T + H;
      var ev := SelectEvent(num, F, C, S, T, H);
      (ev == Fission <==> num < F / total) &&
      (ev == Capture <==> F / total <= num < (F + C) / total) &&
      (ev == ScatterU <==> (F + C) / total <= num < (F + C + S) / total) &&
      (ev == ScatterH <==> (F + C + S) / total <= num)
  {
    var total := T + H;
    DivMonotone(F, F + C, total);
    DivMonotone(F + C, F + C + S, total);
  }

  lemma DivMonotone(a: real, b: real, c: real)
    requires a <= b && 0.0 < c
    ensures a / c <= b / c
  {
  }

  // ---------------------------------------------------------------------
  // The four events
  // ---------------------------------------------------------------------

  /**
   * Fission absorbs the neutron and leaves one offspring energy per
   * multiplicity drawn (1 or 2), each the prompt sampler's value at its
   * draw; nothing else changes.
   */
  lemma FissionSpawnsOneOrTwo(s: NeutronState, t: Tables, children: int, childDraws: seq<real>)
    requires 1 <= children <= 2 && children <= |childDraws|
    ensures var r := AfterFission(s, t, children, childDraws);
      r.absorbed && 1 <= |r.newNeutronEnergies| <= 2 && |r.newNeutronEnergies| == children &&
      (forall k :: 0 <= k < children ==> r.newNeutronEnergies[k] == t.promptSampler(childDraws[k])) &&
      r.(absorbed := s.absorbed, newNeutronEnergies := s.newNeutronEnergies) == s
  {
  }

  /** Capture absorbs the neutron and changes nothing else. */
  lemma CaptureOnlyAbsorbs(s: NeutronState)
    ensures var r := AfterCapture(s);
      r.absorbed && r.(absorbed := s.absorbed) == s
  {
  }

  /** The uranium-scatter energy ratio lies in [α, 1]: elastic scattering never gains energy. */
  lemma ScatterRatioUBounds(m: Maths, angle: real)
    requires m.Lawful()
    ensures Alpha <= ScatterRatioU(m, angle) <= 1.0
    ensures ScatterRatioU(m, angle) == 1.0 <==> m.cos(angle) == 1.0
  {
    CosSinBounds(m, angle);
  }

  /**
   * A uranium scatter scales the energy by the elastic ratio, so the new
   * energy lies in [α·E, E] and is positive when E is.
   */
  lemma ScatterUNeverGains(s: NeutronState, m: Maths, angle: real)
    requires m.Lawful() && 0.0 < s.energy
    ensures Alpha * s.energy <= AfterScatterU(s, m, angle).energy <= s.energy
    ensures 0.0 < AfterScatterU(s, m, angle).energy
  {
    var q := ScatterRatioU(m, angle);
    ScatterRatioUBounds(m, angle);
    ScaledWithin(s.energy, q);
    assert AfterScatterU(s, m, angle).energy == q * s.energy;
  }

  /** A uranium scatter records the drawn angle and changes nothing but the angle and the energy. */
  lemma ScatterUFrame(s: NeutronState, m: Maths, angle: real)
    ensures var r := AfterScatterU(s, m, angle);
      r.angle == angle && r.(energy := s.energy, angle := s.angle) == s
  {
  }

  /** Scaling a positive energy by a ratio in [α, 1] keeps it positive and in [α·E, E]. */
  lemma ScaledWithin(e: real, q: real)
    requires 0.0 < e && Alpha <= q <= 1.0
    ensures Alpha * e <= q * e <= e && 0.0 < q * e
  {
    MulMonotone(e, Alpha, q);
    MulMonotone(e, q, 1.0);
    MulStrict(e, 0.0, q);
  }

  /** A uranium scatter keeps the energy unchanged exactly when the drawn angle has cosine 1. */
  lemma ScatterUKeepsEnergyIff(s: NeutronState, m: Maths, angle: real)
    requires m.Lawful() && 0.0 < s.energy
    ensures AfterScatterU(s, m, angle).energy == s.energy <==> m.cos(angle) == 1.0
  {
    ScatterRatioUBounds(m, angle);
    var q := ScatterRatioU(m, angle);
    if q * s.energy == s.energy {
      ScaledIdentity(q, s.energy);
    }
  }

  /** Scaling a non-zero value by `q` leaves it unchanged only for q = 1. */
  lemma ScaledIdentity(q: real, e: real)
    requires e != 0.0 && q * e == e
    ensures q == 1.0
  {
    assert (q - 1.0) * e == 0.0;
  }

  /**
   * A hydrogen scatter consults the up-scatter sampler exactly below
   * 0.05 eV and the down-scatter sampler otherwise, multiplies the energy by
   * the ratio drawn, and changes nothing else.
   */
  lemma ScatterHSampler(s: NeutronState, t: Tables, draw: real)
    requires t.Valid()
    ensures var r := AfterScatterH(s, t, draw);
      (s.energy < UpScatterThreshold ==> r.energy == t.moderation[1](draw) * s.energy) &&
      (UpScatterThreshold <= s.energy ==> r.energy == t.moderation[0](draw) * s.energy) &&
      r.(energy := s.energy) == s
  {
  }

  /** The energy change of a hydrogen scatter follows the sign of the sampled ratio minus one. */
  lemma ScatterHEnergyChange(s: NeutronState, t: Tables, draw: real)
    requires t.Valid() && 0.0 < s.energy
    ensures var r := AfterScatterH(s, t, draw);
      (s.energy < UpScatterThreshold && 1.0 <= t.moderation[1](draw) ==> s.energy <= r.energy) &&
      (s.energy < UpScatterThreshold && 1.0 < t.moderation[1](draw) ==> s.energy < r.energy) &&
      (UpScatterThreshold <= s.energy && 0.0 < t.moderation[0](draw) < 1.0 ==> 0.0 < r.energy < s.energy)
  {
    RatioScales(s.energy, ModerationRatio(t, s.energy, draw), AfterScatterH(s, t, draw).energy);
  }

  /** Scaling a positive energy `e` by a ratio `q` moves it in the direction of `q` minus one. */
  lemma RatioScales(e: real, q: real, scaled: real)
    requires 0.0 < e && scaled == q * e
    ensures 1.0 <= q ==> e <= scaled
    ensures 1.0 < q ==> e < scaled
    ensures 0.0 < q < 1.0 ==> 0.0 < scaled < e
  {
  }

  // ---------------------------------------------------------------------
  // Absorption
  // ---------------------------------------------------------------------

  /**
   * A step leaves the neutron absorbed exactly when it was absorbed already,
   * fell to the cut-off, or fired fission or capture; the event recorded
   * is then the one fired.
   */
  lemma AbsorbedIffTerminal(s: NeutronState, d: StepDraws, t: Tables, m: Maths)
    requires t.Valid() && m.Lawful() && d.InRange()
    ensures var r := Stepped(s, d, t, m);
      r.absorbed <==>
        s.absorbed || s.energy <= AbsorptionThreshold ||
        EventAt(t, s.energy, d.num) == Fission || EventAt(t, s.energy, d.num) == Capture
  {
    if AbsorptionThreshold < s.energy {
      EnergySpeedPositive(m, s.energy);
    }
  }

  /** A step keeps the neutron consistent: a recorded fission or capture always means absorbed. */
  lemma ConsistentPreserved(s: NeutronState, d: StepDraws, t: Tables, m: Maths)
    requires t.Valid() && m.Lawful() && d.InRange() && Consistent(s)
    ensures Consistent(Stepped(s, d, t, m))
  {
    if AbsorptionThreshold < s.energy {
      EnergySpeedPositive(m, s.energy);
    }
  }

  /** A new neutron has no event yet, so it is consistent. */
  lemma InitialConsistent(m: Maths, energy: real, time: real, startPos: Vec, startVel: Vec, eventCount: nat, absorbed: bool)
    ensures var s := Initial(m, energy, time, startPos, startVel, eventCount, absorbed);
      Consistent(s) && s.eventType == None && s.posDataX == [startPos.x] && s.posDataY == [startPos.y] &&
      s.energyData == [] && s.newNeutronEnergies == []
  {
  }
}
