/**
 * One neutron's random walk. A neutron is free until it is absorbed; each
 * step of a free neutron above the 1e-5 eV cut-off moves it by a sampled
 * free-flight length, records its trajectory and fires exactly one event
 * (fission, capture, scattering off uranium, scattering off hydrogen).
 *
 * `NeutronState` is the value of a neutron's fields and the functions over
 * it (`Stepped`, `AfterChoose`, ...) specify each operation; the class
 * `Neutron` keeps the fields and updates them in place, and each of its
 * methods is proved to leave `State()` equal to the specification applied
 * to the old state. Every random draw of a step arrives in a `StepDraws`
 * value, so what is proved holds whatever the generator returns.
 */
module NeutronModel {
  import opened Numerics
  import opened CreatingDistribution

  /** Below or at this energy (eV) a neutron leaves the walk without an event. */
  const AbsorptionThreshold: real := 1e-5

  /** Hydrogen scattering below this energy (eV, about kT at 600 K) is up-scattering. */
  const UpScatterThreshold: real := 0.05

  /** Speed (cm/s) of a 1 eV neutron; speed grows with the square root of energy. */
  const SpeedConstant: real := 1.38e6

  /** Default energy (eV) of a new neutron: thermal. */
  const ThermalEnergy: real := 0.025

  /** Mass-ratio term of elastic scattering off uranium-235: (234/236)². */
  const Alpha: real := (234.0 / 236.0) * (234.0 / 236.0)

  datatype Event = Fission | Capture | ScatterU | ScatterH

  /**
   * The random draws one step may consume: the fresh direction, the
   * free-flight length, the event selector, the fission multiplicity
   * (`randint(1, 3)`, so 1 or 2) with a uniform draw per offspring, the
   * direction drawn ahead by a uranium scatter, and the selector of the
   * hydrogen-scattering ratio.
   */
  datatype StepDraws = StepDraws(
    direction: real,
    sample: real,
    num: real,
    children: int,
    childDraws: seq<real>,
    scatterAngle: real,
    scatterDraw: real)
  {
    predicate InRange()
    {
      0.0 <= sample && 0.0 <= num < 1.0 &&
      1 <= children <= 2 && children <= |childDraws| &&
      (forall k :: 0 <= k < |childDraws| ==> 0.0 <= childDraws[k] < 1.0) &&
      0.0 <= scatterDraw < 1.0
    }
  }

  /** The fields of a neutron. */
  datatype NeutronState = NeutronState(
    energy: real,
    time: real,
    speed: real,
    eventType: Option<Event>,
    eventCount: nat,
    pos: Vec,
    vel: Vec,
    posDataX: seq<real>,
    posDataY: seq<real>,
    energyData: seq<real>,
    absorbed: bool,
    sample: real,
    angle: real,
    newNeutronEnergies: seq<real>)

  /** Speed (cm/s) of a neutron of the given energy (eV). */
  function EnergySpeed(m: Maths, energy: real): real
  {
    SpeedConstant * m.sqrt(energy)
  }

  lemma EnergySpeedPositive(m: Maths, energy: real)
    requires m.Lawful() && 0.0 < energy
    ensures 0.0 < EnergySpeed(m, energy)
  {
    SqrtPositive(m, energy);
  }

  /** A new neutron, as constructed: at rest, no event yet, its start position as the only history entry. */
  function Initial(m: Maths, energy: real, time: real, startPos: Vec, startVel: Vec, eventCount: nat, absorbed: bool): NeutronState
  {
    NeutronState(energy, time, EnergySpeed(m, energy), None, eventCount, startPos, startVel,
                 [startPos.x], [startPos.y], [], absorbed, 0.0, 0.0, [])
  }

  /** A new neutron with every default except its energy and start position. */
  function Spawned(m: Maths, energy: real, startPos: Vec): NeutronState
  {
    Initial(m, energy, 0.0, startPos, Vec(0.0, 0.0), 0, false)
  }

  /** `numpy.random.uniform(0, dimension)` per axis, from a unit draw per axis. */
  function UniformPoint(dimensionX: real, dimensionY: real, draw: Vec): Vec
  {
    Vec(draw.x * dimensionX, draw.y * dimensionY)
  }

  /** Placing a neutron restarts its position history at the new point. */
  function Placed(s: NeutronState, p: Vec): NeutronState
  {
    s.(pos := p, posDataX := [p.x], posDataY := [p.y])
  }

  /**
   * Event selection: [0, 1) is cut at F/(T+H), (F+C)/(T+H) and
   * (F+C+S)/(T+H); the last event takes whatever is left.
   */
  function SelectEvent(num: real, F: real, C: real, S: real, T: real, H: real): Event
    requires T + H != 0.0
  {
    var total := T + H;
    var fission, capture, scatterU := F / total, (F + C) / total, (F + C + S) / total;
    if 0.0 <= num < fission then Fission
    else if fission <= num < capture then Capture
    else if capture <= num < scatterU then ScatterU
    else ScatterH
  }

  /** Each interval of the selector picks its event; the last event takes the rest. */
  lemma SelectEventCases(num: real, F: real, C: real, S: real, T: real, H: real)
    requires T + H != 0.0
    ensures var total := T + H;
      var fission, capture, scatterU := F / total, (F + C) / total, (F + C + S) / total;
      var ev := SelectEvent(num, F, C, S, T, H);
      (0.0 <= num < fission ==> ev == Fission) &&
      (!(0.0 <= num < fission) && fission <= num < capture ==> ev == Capture) &&
      (!(0.0 <= num < fission) && !(fission <= num < capture) && capture <= num < scatterU ==> ev == ScatterU) &&
      (!(0.0 <= num < fission) && !(fission <= num < capture) && !(capture <= num < scatterU) ==> ev == ScatterH)
  {
  }

  /** The event selected by `num` at the given energy, from the five channel values. */
  function EventAt(t: Tables, energy: real, num: real): Event
    requires t.Valid()
  {
    var cs := t.crossSections;
    SelectEvent(num, cs[0](energy), cs[1](energy), cs[2](energy), cs[3](energy), cs[4](energy))
  }

  function AfterCapture(s: NeutronState): NeutronState
  {
    s.(absorbed := true)
  }

  /** The offspring energies of a fission: the prompt sampler applied to each of the first `children` draws. */
  function FissionEnergies(prompt: real -> real, children: nat, draws: seq<real>): (r: seq<real>)
    requires children <= |draws|
    ensures |r| == children
    ensures forall k :: 0 <= k < children ==> r[k] == prompt(draws[k])
  {
    if children == 0 then [] else FissionEnergies(prompt, children - 1, draws) + [prompt(draws[children - 1])]
  }

  function AfterFission(s: NeutronState, t: Tables, children: nat, childDraws: seq<real>): NeutronState
    requires children <= |childDraws|
  {
    s.(absorbed := true, newNeutronEnergies := FissionEnergies(t.promptSampler, children, childDraws))
  }

  /** Energy ratio of an elastic scatter off uranium through the scattering angle. */
  function ScatterRatioU(m: Maths, angle: real): real
  {
    0.5 * (1.0 + Alpha + (1.0 - Alpha) * m.cos(angle))
  }

  /** A uranium scatter draws the next step's direction now, since the energy loss depends on it. */
  function AfterScatterU(s: NeutronState, m: Maths, angle: real): NeutronState
  {
    s.(angle := angle, energy := ScatterRatioU(m, angle) * s.energy)
  }

  /** The hydrogen-scattering ratio: the up-scatter sampler below the threshold, the down-scatter one otherwise. */
  function ModerationRatio(t: Tables, energy: real, draw: real): real
    requires t.Valid()
  {
    if energy < UpScatterThreshold then t.moderation[1](draw) else t.moderation[0](draw)
  }

  function AfterScatterH(s: NeutronState, t: Tables, draw: real): NeutronState
    requires t.Valid()
  {
    s.(energy := ModerationRatio(t, s.energy, draw) * s.energy)
  }

  /** The effect of event `ev` on a neutron whose event has been counted and recorded. */
  function ApplyEvent(s: NeutronState, ev: Event, d: StepDraws, t: Tables, m: Maths): NeutronState
    requires t.Valid() && d.InRange()
  {
    match ev
    case Fission => AfterFission(s, t, d.children, d.childDraws)
    case Capture => AfterCapture(s)
    case ScatterU => AfterScatterU(s, m, d.scatterAngle)
    case ScatterH => AfterScatterH(s, t, d.scatterDraw)
  }

  /** Counting the event, selecting it at the current energy, recording it and applying it. */
  function AfterChoose(s: NeutronState, d: StepDraws, t: Tables, m: Maths): NeutronState
    requires t.Valid() && d.InRange()
  {
    var ev := EventAt(t, s.energy, d.num);
    ApplyEvent(s.(eventCount := s.eventCount + 1, eventType := Some(ev)), ev, d, t, m)
  }

  /** The direction of a step: the one drawn by a preceding uranium scatter, else a fresh draw. */
  function StepAngle(s: NeutronState, d: StepDraws): real
  {
    if s.eventType != Some(ScatterU) then d.direction else s.angle
  }

  /** A vector of the given length along the direction with cosine `c` and sine `s`. */
  function Polar(length: real, c: real, s: real): Vec
  {
    Vec(length * c, length * s)
  }

  /** The point reached from `p` after travelling `length` along the direction (`c`, `s`). */
  function Displaced(p: Vec, length: real, c: real, s: real): Vec
  {
    Vec(p.x + length * c, p.y + length * s)
  }

  /** The flight of a step: direction, flight length, speed of the current energy, new position and velocity. */
  function Flown(s: NeutronState, d: StepDraws, m: Maths): NeutronState
  {
    var angle := StepAngle(s, d);
    var speed := EnergySpeed(m, s.energy);
    s.(angle := angle, sample := d.sample, speed := speed,
       pos := Displaced(s.pos, d.sample, m.cos(angle), m.sin(angle)),
       vel := Polar(speed, m.cos(angle), m.sin(angle)))
  }

  /** The bookkeeping after a flight: the position and energy histories grow by one entry and the clock advances. */
  function Logged(s: NeutronState): NeutronState
    requires s.speed != 0.0
  {
    s.(posDataX := s.posDataX + [s.pos.x], posDataY := s.posDataY + [s.pos.y],
       energyData := s.energyData + [s.energy],
       time := s.time + s.sample / s.speed)
  }

  /** The kinematic part of a step: the flight, then its bookkeeping. */
  function Moved(s: NeutronState, d: StepDraws, m: Maths): NeutronState
    requires 0.0 < EnergySpeed(m, s.energy)
  {
    Logged(Flown(s, d, m))
  }

  /** One step of the walk: sub-threshold neutrons are absorbed, the others move and fire one event. */
  function Stepped(s: NeutronState, d: StepDraws, t: Tables, m: Maths): NeutronState
    requires t.Valid() && m.Lawful() && d.InRange()
  {
    if AbsorptionThreshold < s.energy then
      EnergySpeedPositive(m, s.energy);
      AfterChoose(Moved(s, d, m), d, t, m)
    else s.(absorbed := true)
  }

  lemma SteppedAbove(s: NeutronState, d: StepDraws, t: Tables, m: Maths)
    requires t.Valid() && m.Lawful() && d.InRange() && AbsorptionThreshold < s.energy
    ensures Stepped(s, d, t, m) == AfterChoose(Moved(s, d, m), d, t, m)
  {
  }

  /** A neutron whose last event was fission or capture is absorbed. */
  ghost predicate Consistent(s: NeutronState)
  {
    (s.eventType == Some(Fission) || s.eventType == Some(Capture)) ==> s.absorbed
  }

  /** The event selected from the five channel values read at `energy`. */
  lemma EventAtFromValues(t: Tables, energy: real, num: real, cs: seq<real>)
    requires t.Valid() && |cs| == 5
    requires forall i :: 0 <= i < 5 ==> cs[i] == t.crossSections[i](energy)
    ensures EventAt(t, energy, num) == SelectEvent(num, cs[0], cs[1], cs[2], cs[3], cs[4])
  {
  }

  class Neutron {
    var energy: real
    var time: real
    var speed: real
    var eventType: Option<Event>
    var eventCount: nat
    var pos: Vec
    var vel: Vec
    var posDataX: seq<real>
    var posDataY: seq<real>
    var energyData: seq<real>
    var absorbed: bool
    var sample: real
    var angle: real
    var newNeutronEnergies: seq<real>

    function State(): NeutronState
      reads this
    {
      NeutronState(energy, time, speed, eventType, eventCount, pos, vel,
                   posDataX, posDataY, energyData, absorbed, sample, angle, newNeutronEnergies)
    }

    constructor (m: Maths, energy: real, time: real, startPos: Vec, startVel: Vec, eventCount: nat, absorbed: bool)
      ensures State() == Initial(m, energy, time, startPos, startVel, eventCount, absorbed)
    {
      this.energy := energy;
      this.time := time;
      this.speed := EnergySpeed(m, energy);
      this.eventType := None;
      this.eventCount := eventCount;
      this.pos := startPos;
      this.vel := startVel;
      this.posDataX := [startPos.x];
      this.posDataY := [startPos.y];
      this.energyData := [];
      this.absorbed := absorbed;
      this.sample := 0.0;
      this.angle := 0.0;
      this.newNeutronEnergies := [];
    }

    /** Places the neutron uniformly in the rectangle [0, dimensionX) × [0, dimensionY) and restarts its position history there. */
    method SetPosition(dimensionX: real, dimensionY: real, draw: Vec)
      modifies this
      ensures State() == Placed(old(State()), UniformPoint(dimensionX, dimensionY, draw))
    {
      pos := Vec(draw.x * dimensionX, pos.y);
      pos := Vec(pos.x, draw.y * dimensionY);
      assert pos == UniformPoint(dimensionX, dimensionY, draw);
      posDataX := [pos.x];
      posDataY := [pos.y];
    }

    method RandomStep(d: StepDraws, t: Tables, m: Maths)
      requires t.Valid() && m.Lawful() && d.InRange()
      modifies this
      ensures State() == Stepped(old(State()), d, t, m)
    {
      if energy > AbsorptionThreshold {
        ghost var s0 := State();
        EnergySpeedPositive(m, energy);
        Move(d, m);
        ChooseEvent(d, t, m);
        SteppedAbove(s0, d, t, m);
      } else {
        absorbed := true;
      }
    }

    /** The flight of `randomStep`: direction, flight, velocity, histories and elapsed time. */
    method Move(d: StepDraws, m: Maths)
      requires 0.0 < EnergySpeed(m, energy)
      modifies this
      ensures State() == Moved(old(State()), d, m)
    {
      Fly(d, m);
      Log();
    }

    /** The direction, flight length, speed, position and velocity of a step. */
    method Fly(d: StepDraws, m: Maths)
      modifies this
      ensures State() == Flown(old(State()), d, m)
    {
      var direction := if eventType != Some(ScatterU) then d.direction else angle;
      var cos, sin := m.cos(direction), m.sin(direction);
      var v := EnergySpeed(m, energy);
      angle := direction;
      sample := d.sample;
      speed := v;
      pos := Displaced(pos, sample, cos, sin);
      vel := Polar(speed, cos, sin);
    }

    /** The histories grow by the new position and the pre-step energy, and the clock advances by the flight time. */
    method Log()
      requires speed != 0.0
      modifies this
      ensures State() == Logged(old(State()))
    {
      posDataX := posDataX + [pos.x];
      posDataY := posDataY + [pos.y];
      energyData := energyData + [energy];
      time := time + sample / speed;
    }

    /** The five channel values at the current energy, in table order. */
    method SetCrossSection(t: Tables) returns (values: seq<real>)
      ensures |values| == |t.crossSections|
      ensures forall i :: 0 <= i < |values| ==> values[i] == t.crossSections[i](energy)
    {
      values := [];
      for i := 0 to |t.crossSections|
        invariant |values| == i
        invariant forall j :: 0 <= j < i ==> values[j] == t.crossSections[j](energy)
      {
        values := values + [t.crossSections[i](energy)];
      }
    }

    method ChooseEvent(d: StepDraws, t: Tables, m: Maths)
      requires t.Valid() && d.InRange()
      modifies this
      ensures State() == AfterChoose(old(State()), d, t, m)
    {
      ghost var s0 := State();
      eventCount := eventCount + 1;
      var num := d.num;
      var cs := SetCrossSection(t);
      var F, C, S, T, H := cs[0], cs[1], cs[2], cs[3], cs[4];
      EventAtFromValues(t, energy, num, cs);
      SelectEventCases(num, F, C, S, T, H);
      ghost var ev := EventAt(t, energy, num);
      var total := T + H;
      var fission, capture, scatterU := F / total, (F + C) / total, (F + C + S) / total;
      if 0.0 <= num < fission {
        eventType := Some(Fission);
        assert ev == Fission;
        FissionEvent(d.children, d.childDraws, t);
      } else if fission <= num < capture {
        eventType := Some(Capture);
        assert ev == Capture;
        CaptureEvent();
      } else if capture <= num < scatterU {
        eventType := Some(ScatterU);
        assert ev == ScatterU;
        ScatterEventU(d.scatterAngle, m);
      } else {
        eventType := Some(ScatterH);
        assert ev == ScatterH;
        ScatterEventH(d.scatterDraw, t);
      }
    }

    method CaptureEvent()
      modifies this
      ensures State() == AfterCapture(old(State()))
    {
      absorbed := true;
    }

    /** Absorbs the neutron and records one prompt-spectrum energy per offspring. */
    method FissionEvent(children: int, childDraws: seq<real>, t: Tables)
      requires 1 <= children <= 2 && children <= |childDraws|
      modifies this
      ensures State() == AfterFission(old(State()), t, children, childDraws)
    {
      absorbed := true;
      newNeutronEnergies := [];
      for i := 0 to children
        invariant State() == old(State()).(absorbed := true,
                                           newNeutronEnergies := FissionEnergies(t.promptSampler, i, childDraws))
      {
        var rand := childDraws[i];
        newNeutronEnergies := newNeutronEnergies + [t.promptSampler(rand)];
      }
    }

    method ScatterEventU(angleDraw: real, m: Maths)
      modifies this
      ensures State() == AfterScatterU(old(State()), m, angleDraw)
    {
      angle := angleDraw;
      var ratio := 0.5 * (1.0 + Alpha + (1.0 - Alpha) * m.cos(angle));
      energy := ratio * energy;
    }

    method ScatterEventH(draw: real, t: Tables)
      requires t.Valid()
      modifies this
      ensures State() == AfterScatterH(old(State()), t, draw)
    {
      var ratio;
      if energy < UpScatterThreshold {
        ratio := t.moderation[1](draw);
      } else {
        ratio := t.moderation[0](draw);
      }
      energy := ratio * energy;
    }
  }
}
