/**
 * The reactor: a population of neutrons swept step by step. Each sweep
 * steps every neutron that is not yet absorbed, in list order, records the
 * energy and speed it leaves with, counts fission offspring as gain and
 * fission or capture as loss, and only after the whole list has been
 * visited appends the offspring, updates k_eff from gain and loss, and
 * extends the k_eff and energy histories.
 *
 * `ReactorState` is the value of a reactor's fields; `Swept`, `Generated`
 * and `StartedUp` specify the operations on it. The class `Reactor` keeps
 * the fields and updates them in place, holding each neutron by its
 * `NeutronState` (the value the `Neutron` class's methods are proved
 * against), and each method is proved to leave `Snapshot()` equal to the
 * specification applied to the old value.
 */
module ReactorModel {
  import opened Numerics
  import opened CreatingDistribution
  import opened NeutronModel

  /** The `[energy, speed]` entry a neutron contributes to a step's energy holder. */
  datatype SpeedPair = SpeedPair(energy: real, speed: real)

  /**
   * What one sweep collects: neutrons gained from fission, neutrons lost to
   * fission or capture, the energy holder, and the offspring created.
   */
  datatype Tally = Tally(gain: nat, loss: nat, holder: seq<SpeedPair>, offspring: seq<NeutronState>)

  const NoTally: Tally := Tally(0, 0, [], [])

  function Combine(a: Tally, b: Tally): Tally
  {
    Tally(a.gain + b.gain, a.loss + b.loss, a.holder + b.holder, a.offspring + b.offspring)
  }

  /** Every draw a sweep may consume for the neutron at index `i` is in range. */
  ghost predicate DrawsInRange(ds: nat -> StepDraws)
  {
    forall i: nat :: ds(i).InRange()
  }

  /** The draws of every sweep are in range. */
  ghost predicate AllDrawsInRange(draws: nat -> nat -> StepDraws)
  {
    forall k: nat :: DrawsInRange(draws(k))
  }

  /** What a run of sweeps may be given: valid tables, lawful maths and every sweep's draws in range. */
  ghost predicate Admissible(t: Tables, m: Maths, draws: nat -> nat -> StepDraws)
  {
    t.Valid() && m.Lawful() && AllDrawsInRange(draws)
  }

  /** A neutron in the sweep: absorbed neutrons are passed over, the others take one step. */
  function Advance(s: NeutronState, d: StepDraws, t: Tables, m: Maths): NeutronState
    requires t.Valid() && m.Lawful() && d.InRange()
  {
    if s.absorbed then s else Stepped(s, d, t, m)
  }

  /**
   * The neutrons a fissioned parent leaves: one per recorded energy, at the
   * parent's position, with thermal energy when `thermal` and the recorded
   * energy otherwise.
   */
  function Offspring(m: Maths, parent: NeutronState, thermal: bool): seq<NeutronState>
  {
    var energies := parent.newNeutronEnergies;
    seq(|energies|, k requires 0 <= k < |energies| =>
      Spawned(m, if thermal then ThermalEnergy else energies[k], parent.pos))
  }

  /**
   * What one neutron adds to the sweep's tally, given its state before and
   * after its turn: nothing when it was already absorbed, otherwise its
   * post-step energy and speed, and gain, loss and offspring by the event it
   * ended the step with.
   */
  function Contribution(before: NeutronState, after: NeutronState, m: Maths, thermal: bool): Tally
  {
    if before.absorbed then NoTally
    else
      var entry := [SpeedPair(after.energy, EnergySpeed(m, after.energy))];
      if after.eventType == Some(Fission) then Tally(|after.newNeutronEnergies|, 1, entry, Offspring(m, after, thermal))
      else if after.eventType == Some(Capture) then Tally(0, 1, entry, [])
      else Tally(0, 0, entry, [])
  }

  /** The tally of the first `n` turns of a sweep, neutron `i` going from `before[i]` to `after[i]`, in list order. */
  function ScanTally(before: seq<NeutronState>, after: seq<NeutronState>, n: nat, m: Maths, thermal: bool): Tally
    requires n <= |before| && n <= |after|
  {
    if n == 0 then NoTally
    else Combine(ScanTally(before, after, n - 1, m, thermal), Contribution(before[n - 1], after[n - 1], m, thermal))
  }

  /** The first `n` neutrons of `states`, each advanced once. */
  function AdvancedPrefix(states: seq<NeutronState>, n: nat, ds: nat -> StepDraws, t: Tables, m: Maths): (r: seq<NeutronState>)
    requires n <= |states| && t.Valid() && m.Lawful() && DrawsInRange(ds)
    ensures |r| == n
  {
    if n == 0 then [] else AdvancedPrefix(states, n - 1, ds, t, m) + [Advance(states[n - 1], ds(n - 1), t, m)]
  }

  /** The population after a sweep, before the offspring join it. */
  function Advanced(states: seq<NeutronState>, ds: nat -> StepDraws, t: Tables, m: Maths): seq<NeutronState>
    requires t.Valid() && m.Lawful() && DrawsInRange(ds)
  {
    AdvancedPrefix(states, |states|, ds, t, m)
  }

  /** `calcCrit`: k_eff becomes gain / loss when both are non-zero, and is kept otherwise. */
  function CalcCritSpec(kEff: real, gain: nat, loss: nat): real
  {
    if gain != 0 && loss != 0 then gain as real / loss as real else kEff
  }

  /** The fields of a reactor, with each neutron given by its state. */
  datatype ReactorState = ReactorState(
    neutronStart: nat,
    stepCount: nat,
    neutrons: seq<NeutronState>,
    kEff: real,
    energyList: seq<seq<SpeedPair>>,
    kEffData: seq<real>,
    thermal: bool,
    dimensions: Vec)

  /** A reactor as constructed: no neutrons, no energy history, and a k_eff history holding 1. */
  function Fresh(neutronStart: nat, stepCount: nat, kEff: real, dimensions: Vec, thermal: bool): ReactorState
  {
    ReactorState(neutronStart, stepCount, [], kEff, [], [1.0], thermal, dimensions)
  }

  /** One sweep: step, tally, append offspring, update k_eff, extend both histories. */
  function Swept(rs: ReactorState, ds: nat -> StepDraws, t: Tables, m: Maths): ReactorState
    requires t.Valid() && m.Lawful() && DrawsInRange(ds)
  {
    var after := Advanced(rs.neutrons, ds, t, m);
    var tally := ScanTally(rs.neutrons, after, |after|, m, rs.thermal);
    var k := CalcCritSpec(rs.kEff, tally.gain, tally.loss);
    rs.(neutrons := after + tally.offspring,
        kEff := k, kEffData := rs.kEffData + [k], energyList := rs.energyList + [tally.holder])
  }

  /** A starting neutron: default (thermal, at rest) and placed uniformly in the reactor's rectangle. */
  function Starter(m: Maths, dimensions: Vec, draw: Vec): NeutronState
  {
    Placed(Spawned(m, ThermalEnergy, Vec(0.0, 0.0)), UniformPoint(dimensions.x, dimensions.y, draw))
  }

  function Starters(m: Maths, dimensions: Vec, places: seq<Vec>): seq<NeutronState>
  {
    seq(|places|, i requires 0 <= i < |places| => Starter(m, dimensions, places[i]))
  }

  /** The energy-holder entries of `count` starting neutrons. */
  function StarterEntries(m: Maths, count: nat): seq<SpeedPair>
  {
    seq(count, i => SpeedPair(ThermalEnergy, EnergySpeed(m, ThermalEnergy)))
  }

  /** `generateList`: one starting neutron per placement draw, and one energy-history entry for them. */
  function Generated(rs: ReactorState, m: Maths, places: seq<Vec>): ReactorState
  {
    rs.(neutrons := rs.neutrons + Starters(m, rs.dimensions, places),
        energyList := rs.energyList + [StarterEntries(m, |places|)])
  }

  /** `n` sweeps, sweep `k` drawing from `draws(k)`. */
  function Run(rs: ReactorState, draws: nat -> nat -> StepDraws, n: nat, t: Tables, m: Maths): ReactorState
    requires Admissible(t, m, draws)
    decreases n
  {
    if n == 0 then rs else Swept(Run(rs, draws, n - 1, t, m), draws(n - 1), t, m)
  }

  /** `startUp`: generate the starting neutrons, then sweep `stepCount` times. */
  function StartedUp(rs: ReactorState, m: Maths, places: seq<Vec>, draws: nat -> nat -> StepDraws, t: Tables): ReactorState
    requires Admissible(t, m, draws)
  {
    Run(Generated(rs, m, places), draws, rs.stepCount, t, m)
  }

  class Reactor {
    var neutronStart: nat
    var stepCount: nat
    var neutronList: seq<NeutronState>
    var kEff: real
    var energyList: seq<seq<SpeedPair>>
    var kEffData: seq<real>
    var thermal: bool
    var dimensions: Vec

    ghost function Snapshot(): ReactorState
      reads this
    {
      ReactorState(neutronStart, stepCount, neutronList, kEff, energyList, kEffData, thermal, dimensions)
    }

    constructor (neutronStart: nat, stepCount: nat, kEff: real, dimensions: Vec, thermal: bool)
      ensures Snapshot() == Fresh(neutronStart, stepCount, kEff, dimensions, thermal)
    {
      this.neutronStart := neutronStart;
      this.stepCount := stepCount;
      this.neutronList := [];
      this.kEff := kEff;
      this.energyList := [];
      this.kEffData := [1.0];
      this.thermal := thermal;
      this.dimensions := dimensions;
    }

    /** Creates and places the starting neutrons, one placement draw each, and records their energies and speeds. */
    method GenerateList(m: Maths, places: seq<Vec>)
      requires |places| == neutronStart
      modifies this
      ensures Snapshot() == Generated(old(Snapshot()), m, places)
    {
      var holder: seq<SpeedPair> := [];
      var list := neutronList;
      for i := 0 to neutronStart
        invariant unchanged(this)
        invariant list == old(neutronList) + Starters(m, dimensions, places[..i])
        invariant holder == StarterEntries(m, i)
      {
        var neutron := new Neutron(m, ThermalEnergy, 0.0, Vec(0.0, 0.0), Vec(0.0, 0.0), 0, false);
        neutron.SetPosition(dimensions.x, dimensions.y, places[i]);
        assert Starters(m, dimensions, places[..i + 1]) == Starters(m, dimensions, places[..i]) + [neutron.State()];
        list := list + [neutron.State()];
        holder := holder + [SpeedPair(neutron.energy, EnergySpeed(m, neutron.energy))];
      }
      assert places[..neutronStart] == places;
      neutronList := list;
      energyList := energyList + [holder];
    }

    /** `calcCrit`: k_eff becomes gain / loss when both are non-zero. */
    method CalcCrit(gain: nat, loss: nat)
      modifies this`kEff
      ensures kEff == CalcCritSpec(old(kEff), gain, loss)
    {
      if gain != 0 && loss != 0 {
        kEff := gain as real / loss as real;
      }
    }

    /** The neutrons a fissioned parent leaves, one new `Neutron` per recorded energy, taken by their states. */
    method Spawn(parent: NeutronState, m: Maths) returns (kids: seq<NeutronState>)
      ensures kids == Offspring(m, parent, thermal)
    {
      kids := [];
      var energies := parent.newNeutronEnergies;
      for j := 0 to |energies|
        invariant kids == Offspring(m, parent, thermal)[..j]
      {
        var energy := if thermal then ThermalEnergy else energies[j];
        var kid := new Neutron(m, energy, 0.0, parent.pos, Vec(0.0, 0.0), 0, false);
        assert kid.State() == Spawned(m, energy, parent.pos) == Offspring(m, parent, thermal)[j];
        assert Offspring(m, parent, thermal)[..j + 1] == Offspring(m, parent, thermal)[..j] + [kid.State()];
        kids := kids + [kid.State()];
      }
    }

    /**
     * One neutron's turn in the scan: passed over when absorbed, otherwise
     * stepped, with its post-step energy and speed recorded and its gain,
     * loss and offspring counted.
     */
    method Visit(neutron: NeutronState, d: StepDraws, t: Tables, m: Maths)
      returns (after: NeutronState, gain: nat, loss: nat, entry: seq<SpeedPair>, kids: seq<NeutronState>)
      requires t.Valid() && m.Lawful() && d.InRange()
      ensures after == Advance(neutron, d, t, m)
      ensures Tally(gain, loss, entry, kids) == Contribution(neutron, after, m, thermal)
    {
      after, gain, loss, entry, kids := neutron, 0, 0, [], [];
      if !neutron.absorbed {
        after := Stepped(neutron, d, t, m);
        entry := [SpeedPair(after.energy, EnergySpeed(m, after.energy))];
        if after.eventType == Some(Fission) {
          gain := |after.newNeutronEnergies|;
          loss := 1;
          kids := Spawn(after, m);
        } else if after.eventType == Some(Capture) {
          loss := 1;
        }
      }
    }

    /**
     * The scan over the list: every neutron that is not absorbed takes one
     * step, in list order, neutron `i` drawing from `ds(i)`; its post-step
     * energy and speed join the holder, fission adds its offspring to the
     * gain and counts as a loss, capture counts as a loss. Offspring are
     * collected apart and not stepped.
     */
    method Sweep(states: seq<NeutronState>, ds: nat -> StepDraws, t: Tables, m: Maths)
      returns (list: seq<NeutronState>, gain: nat, loss: nat, holder: seq<SpeedPair>, newNeutrons: seq<NeutronState>)
      requires t.Valid() && m.Lawful() && DrawsInRange(ds)
      ensures list == Advanced(states, ds, t, m)
      ensures Tally(gain, loss, holder, newNeutrons) == ScanTally(states, list, |list|, m, thermal)
    {
      list, gain, loss, holder, newNeutrons := states, 0, 0, [], [];
      for i := 0 to |states|
        invariant |list| == |states| && list[i..] == states[i..]
        invariant list[..i] == AdvancedPrefix(states, i, ds, t, m)
        invariant Tally(gain, loss, holder, newNeutrons) == ScanTally(states, list, i, m, thermal)
      {
        assert list[i] == states[i];
        var neutron, g, l, entry, kids := Visit(list[i], ds(i), t, m);
        TurnTaken(states, list, i, neutron, ds, t, m, thermal);
        gain, loss, holder, newNeutrons := gain + g, loss + l, holder + entry, newNeutrons + kids;
        list := list[i := neutron];
      }
      assert list == list[..|states|];
    }

    /** One pass of `startUp`'s step loop: the scan, then the offspring join, k_eff and both histories are updated. */
    method RunStep(ds: nat -> StepDraws, t: Tables, m: Maths)
      requires t.Valid() && m.Lawful() && DrawsInRange(ds)
      modifies this
      ensures Snapshot() == Swept(old(Snapshot()), ds, t, m)
    {
      var list, gain, loss, holder, newNeutrons := Sweep(neutronList, ds, t, m);
      neutronList := list + newNeutrons;
      CalcCrit(gain, loss);
      kEffData := kEffData + [kEff];
      energyList := energyList + [holder];
    }

    /** `startUp`: generates the starting neutrons, then runs `stepCount` sweeps. */
    method StartUp(places: seq<Vec>, draws: nat -> nat -> StepDraws, t: Tables, m: Maths)
      requires Admissible(t, m, draws) && |places| == neutronStart
      modifies this
      ensures Snapshot() == StartedUp(old(Snapshot()), m, places, draws, t)
    {
      GenerateList(m, places);
      RunSteps(draws, stepCount, t, m);
    }

    /** The step loop of `startUp`: sweep `k` draws from `draws(k)`. */
    method RunSteps(draws: nat -> nat -> StepDraws, n: nat, t: Tables, m: Maths)
      requires Admissible(t, m, draws)
      modifies this
      ensures Snapshot() == Run(old(Snapshot()), draws, n, t, m)
    {
      for i := 0 to n
        invariant Snapshot() == Run(old(Snapshot()), draws, i, t, m)
      {
        RunStep(draws(i), t, m);
      }
    }

    /** `neutronData`: every neutron that has existed in the run, each with its own history. */
    method NeutronData() returns (ns: seq<NeutronState>)
      ensures ns == neutronList
    {
      ns := neutronList;
    }
  }

  /**
   * The neutron at index `i` takes its turn: with `x` its state after the
   * turn, the visited prefix grows by `x` and the tally by its contribution.
   */
  lemma TurnTaken(states: seq<NeutronState>, list: seq<NeutronState>, i: nat, x: NeutronState,
                  ds: nat -> StepDraws, t: Tables, m: Maths, thermal: bool)
    requires t.Valid() && m.Lawful() && DrawsInRange(ds)
    requires i < |list| == |states| && list[i..] == states[i..]
    requires list[..i] == AdvancedPrefix(states, i, ds, t, m)
    requires x == Advance(states[i], ds(i), t, m)
    ensures list[i := x][i + 1..] == states[i + 1..]
    ensures list[i := x][..i + 1] == AdvancedPrefix(states, i + 1, ds, t, m)
    ensures ScanTally(states, list[i := x], i + 1, m, thermal)
         == Combine(ScanTally(states, list, i, m, thermal), Contribution(states[i], x, m, thermal))
  {
    assert list[i] == states[i];
    ScanTallyPrefix(states, list[i := x], list, i, m, thermal);
    assert list[i := x][..i + 1] == list[..i] + [x];
  }

  /** Neutron `j` of a scanned population is neutron `j` of the old one advanced once with the draws `ds(j)`. */
  lemma AdvancedAt(states: seq<NeutronState>, ds: nat -> StepDraws, t: Tables, m: Maths, j: nat)
    requires t.Valid() && m.Lawful() && DrawsInRange(ds) && j < |states|
    ensures |Advanced(states, ds, t, m)| == |states|
    ensures Advanced(states, ds, t, m)[j] == Advance(states[j], ds(j), t, m)
  {
    AdvancedPrefixAt(states, |states|, ds, t, m, j);
  }

  lemma {:induction false} AdvancedPrefixAt(states: seq<NeutronState>, n: nat, ds: nat -> StepDraws, t: Tables, m: Maths, j: nat)
    requires j < n <= |states| && t.Valid() && m.Lawful() && DrawsInRange(ds)
    ensures AdvancedPrefix(states, n, ds, t, m)[j] == Advance(states[j], ds(j), t, m)
  {
    if j < n - 1 {
      AdvancedPrefixAt(states, n - 1, ds, t, m, j);
    }
  }

  /** The tally of the first `n` turns depends only on the first `n` states after. */
  lemma {:induction false} ScanTallyPrefix(before: seq<NeutronState>, a1: seq<NeutronState>, a2: seq<NeutronState>, n: nat, m: Maths, thermal: bool)
    requires n <= |before| && n <= |a1| && n <= |a2|
    requires forall j :: 0 <= j < n ==> a1[j] == a2[j]
    ensures ScanTally(before, a1, n, m, thermal) == ScanTally(before, a2, n, m, thermal)
  {
    if n > 0 {
      ScanTallyPrefix(before, a1, a2, n - 1, m, thermal);
    }
  }
}
