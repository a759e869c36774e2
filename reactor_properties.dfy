/**
 * What a sweep, `generateList` and `startUp` guarantee, stated over the
 * specification functions of `ReactorModel` that the `Reactor` methods are
 * proved to follow.
 */
module ReactorProperties {
  import opened Numerics
  import opened CreatingDistribution
  import opened NeutronModel
  import opened NeutronProperties
  import opened ReactorModel

  // ---------------------------------------------------------------------
  // Reference counts of a scan
  // ---------------------------------------------------------------------

  /** The turn of a neutron that was free when the scan reached it ended with event `ev`. */
  predicate Fired(before: NeutronState, after: NeutronState, ev: Event)
  {
    !before.absorbed && after.eventType == Some(ev)
  }

  /** How many of the first `n` neutrons were free (not absorbed) when the scan reached them. */
  function FreeCount(before: seq<NeutronState>, n: nat): nat
    requires n <= |before|
  {
    if n == 0 then 0 else FreeCount(before, n - 1) + (if before[n - 1].absorbed then 0 else 1)
  }

  /** How many of the first `n` turns ended with fission or capture. */
  function Absorptions(before: seq<NeutronState>, after: seq<NeutronState>, n: nat): nat
    requires n <= |before| && n <= |after|
  {
    if n == 0 then 0
    else
      var lost := Fired(before[n - 1], after[n - 1], Fission) || Fired(before[n - 1], after[n - 1], Capture);
      Absorptions(before, after, n - 1) + (if lost then 1 else 0)
  }

  /** How many offspring energies the fissions of the first `n` turns recorded. */
  function FissionYield(before: seq<NeutronState>, after: seq<NeutronState>, n: nat): nat
    requires n <= |before| && n <= |after|
  {
    if n == 0 then 0
    else
      var born := if Fired(before[n - 1], after[n - 1], Fission) then |after[n - 1].newNeutronEnergies| else 0;
      FissionYield(before, after, n - 1) + born
  }

  /**
   * The gain of a scan is the number of offspring energies its fissions
   * recorded and also the number of offspring it creates; its loss is the
   * number of fissions and captures; its energy holder has one entry per
   * neutron that was free when reached.
   */
  lemma {:induction false} ScanCounts(before: seq<NeutronState>, after: seq<NeutronState>, n: nat, m: Maths, thermal: bool)
    requires n <= |before| && n <= |after|
    ensures var tally := ScanTally(before, after, n, m, thermal);
      tally.gain == FissionYield(before, after, n) && |tally.offspring| == tally.gain &&
      tally.loss == Absorptions(before, after, n) &&
      |tally.holder| == FreeCount(before, n)
  {
    if n > 0 {
      ScanCounts(before, after, n - 1, m, thermal);
    }
  }

  /** Every entry pairs an energy with the speed of that energy. */
  ghost predicate SpeedsMatch(holder: seq<SpeedPair>, m: Maths)
  {
    forall k :: 0 <= k < |holder| ==> holder[k].speed == EnergySpeed(m, holder[k].energy)
  }

  /** Every energy-holder entry of a scan pairs an energy with the speed of that energy. */
  lemma {:induction false} HolderPairsSpeed(before: seq<NeutronState>, after: seq<NeutronState>, n: nat, m: Maths, thermal: bool)
    requires n <= |before| && n <= |after|
    ensures SpeedsMatch(ScanTally(before, after, n, m, thermal).holder, m)
  {
    if n > 0 {
      HolderPairsSpeed(before, after, n - 1, m, thermal);
      var prev := ScanTally(before, after, n - 1, m, thermal).holder;
      var c := Contribution(before[n - 1], after[n - 1], m, thermal).holder;
      assert ScanTally(before, after, n, m, thermal).holder == prev + c;
      assert SpeedsMatch(c, m);
    }
  }

  // ---------------------------------------------------------------------
  // Offspring
  // ---------------------------------------------------------------------

  /** A neutron that has not taken a step: free, no event, no energy history, its start as its only position. */
  ghost predicate Unstepped(s: NeutronState)
  {
    !s.absorbed && s.eventType == None && s.eventCount == 0 && s.energyData == [] &&
    s.posDataX == [s.pos.x] && s.posDataY == [s.pos.y] && s.newNeutronEnergies == []
  }

  /**
   * A fissioned parent leaves one offspring per recorded energy, each at the
   * parent's post-step position, with thermal energy when `thermal` and the
   * recorded energy otherwise, and none of them has stepped yet.
   */
  lemma OffspringPlaced(m: Maths, parent: NeutronState, thermal: bool)
    ensures var kids := Offspring(m, parent, thermal);
      |kids| == |parent.newNeutronEnergies| &&
      forall k :: 0 <= k < |kids| ==>
        kids[k].pos == parent.pos && Unstepped(kids[k]) &&
        kids[k].energy == (if thermal then ThermalEnergy else parent.newNeutronEnergies[k])
  {
    var kids := Offspring(m, parent, thermal);
    forall k | 0 <= k < |kids|
      ensures kids[k].pos == parent.pos && Unstepped(kids[k]) &&
        kids[k].energy == (if thermal then ThermalEnergy else parent.newNeutronEnergies[k])
    {
      var energy := if thermal then ThermalEnergy else parent.newNeutronEnergies[k];
      assert kids[k] == Spawned(m, energy, parent.pos);
      InitialConsistent(m, energy, 0.0, parent.pos, Vec(0.0, 0.0), 0, false);
    }
  }

  /** None of `kids` has stepped; with `thermal` each has thermal energy. */
  ghost predicate NewBorn(kids: seq<NeutronState>, thermal: bool)
  {
    forall k :: 0 <= k < |kids| ==> Unstepped(kids[k]) && (thermal ==> kids[k].energy == ThermalEnergy)
  }

  /** Every offspring a scan collects is a neutron that has not stepped; with `thermal` each has thermal energy. */
  lemma {:induction false} ScanOffspringUnstepped(before: seq<NeutronState>, after: seq<NeutronState>, n: nat, m: Maths, thermal: bool)
    requires n <= |before| && n <= |after|
    ensures NewBorn(ScanTally(before, after, n, m, thermal).offspring, thermal)
  {
    if n > 0 {
      ScanOffspringUnstepped(before, after, n - 1, m, thermal);
      var prev := ScanTally(before, after, n - 1, m, thermal).offspring;
      var c := Contribution(before[n - 1], after[n - 1], m, thermal).offspring;
      assert ScanTally(before, after, n, m, thermal).offspring == prev + c;
      OffspringPlaced(m, after[n - 1], thermal);
      assert NewBorn(c, thermal);
    }
  }

  // ---------------------------------------------------------------------
  // One turn
  // ---------------------------------------------------------------------

  /** Every neutron of the population is consistent. */
  ghost predicate AllConsistent(states: seq<NeutronState>)
  {
    forall k :: 0 <= k < |states| ==> Consistent(states[k])
  }

  /**
   * `b` is `a` later in its walk: its histories extend those of `a`, it has
   * counted at least as many events, and an absorbed neutron never changes.
   */
  ghost predicate LaterInWalk(a: NeutronState, b: NeutronState)
  {
    a.posDataX <= b.posDataX && a.posDataY <= b.posDataY && a.energyData <= b.energyData &&
    a.eventCount <= b.eventCount && (a.absorbed ==> b == a)
  }

  /**
   * A turn of a consistent neutron keeps it consistent, moves it later in
   * its walk, and when it records a fission that fission left one or two
   * offspring energies.
   */
  lemma TurnOfConsistent(s: NeutronState, d: StepDraws, t: Tables, m: Maths)
    requires t.Valid() && m.Lawful() && d.InRange() && Consistent(s)
    ensures var a := Advance(s, d, t, m);
      Consistent(a) && LaterInWalk(s, a) &&
      (Fired(s, a, Fission) ==> 1 <= |a.newNeutronEnergies| <= 2)
  {
    if !s.absorbed {
      ConsistentPreserved(s, d, t, m);
      if AbsorptionThreshold < s.energy {
        StepRecordsOneEntry(s, d, t, m);
        FiredFissionYield(s, d, t, m);
      } else {
        SubThresholdAbsorbs(s, d, t, m);
      }
    }
  }

  /** Above the cut-off, a step that records fission has drawn one or two offspring energies. */
  lemma FiredFissionYield(s: NeutronState, d: StepDraws, t: Tables, m: Maths)
    requires t.Valid() && m.Lawful() && d.InRange() && AbsorptionThreshold < s.energy
    ensures var a := Stepped(s, d, t, m);
      a.eventType == Some(Fission) ==> |a.newNeutronEnergies| == d.children
  {
    SteppedAbove(s, d, t, m);
    EnergySpeedPositive(m, s.energy);
    var moved := Moved(s, d, m);
    var ev := EventAt(t, moved.energy, d.num);
    var counted := moved.(eventCount := moved.eventCount + 1, eventType := Some(ev));
    assert Stepped(s, d, t, m) == ApplyEvent(counted, ev, d, t, m);
  }

  /** A turn from `before` to `after` gains at most two neutrons per lost one. */
  predicate TurnBalanced(before: NeutronState, after: NeutronState, m: Maths, thermal: bool)
  {
    var c := Contribution(before, after, m, thermal);
    c.gain <= 2 * c.loss
  }

  /** One turn of a consistent neutron contributes at most two gained neutrons per lost one. */
  lemma TurnGainBounded(s: NeutronState, d: StepDraws, t: Tables, m: Maths, thermal: bool)
    requires t.Valid() && m.Lawful() && d.InRange() && Consistent(s)
    ensures TurnBalanced(s, Advance(s, d, t, m), m, thermal)
  {
    TurnOfConsistent(s, d, t, m);
  }

  // ---------------------------------------------------------------------
  // One sweep
  // ---------------------------------------------------------------------

  /** A scan whose every turn is balanced gains at most two neutrons per lost one. */
  lemma {:induction false} ScanGainBounded(before: seq<NeutronState>, after: seq<NeutronState>, n: nat, m: Maths, thermal: bool)
    requires n <= |before| && n <= |after|
    requires forall j :: 0 <= j < n ==> TurnBalanced(before[j], after[j], m, thermal)
    ensures var tally := ScanTally(before, after, n, m, thermal);
      tally.gain <= 2 * tally.loss
  {
    if n > 0 {
      ScanGainBounded(before, after, n - 1, m, thermal);
      assert TurnBalanced(before[n - 1], after[n - 1], m, thermal);
    }
  }

  /**
   * A sweep keeps the existing neutrons in order, each advanced once, and
   * appends exactly `gain` offspring after them; it appends one k_eff and
   * one energy holder, whose entries count the neutrons that were free, and
   * its loss counts the fissions and captures. Nothing else changes.
   */
  lemma SweptShape(rs: ReactorState, ds: nat -> StepDraws, t: Tables, m: Maths)
    requires t.Valid() && m.Lawful() && DrawsInRange(ds)
    ensures var r := Swept(rs, ds, t, m);
      var after := Advanced(rs.neutrons, ds, t, m);
      var tally := ScanTally(rs.neutrons, after, |after|, m, rs.thermal);
      r.neutrons[..|rs.neutrons|] == after && |r.neutrons| == |rs.neutrons| + tally.gain &&
      tally.loss == Absorptions(rs.neutrons, after, |after|) &&
      r.kEffData == rs.kEffData + [r.kEff] && r.energyList == rs.energyList + [tally.holder] &&
      |tally.holder| == FreeCount(rs.neutrons, |rs.neutrons|) &&
      r.(neutrons := rs.neutrons, kEff := rs.kEff, kEffData := rs.kEffData, energyList := rs.energyList) == rs
  {
    var after := Advanced(rs.neutrons, ds, t, m);
    ScanCounts(rs.neutrons, after, |after|, m, rs.thermal);
    var tally := ScanTally(rs.neutrons, after, |after|, m, rs.thermal);
    assert (after + tally.offspring)[..|rs.neutrons|] == after;
  }

  /**
   * Absorbed neutrons are passed over unchanged, every neutron of a
   * consistent population moves later in its own walk and stays
   * consistent, and the appended offspring have not stepped.
   */
  lemma SweptNeutrons(rs: ReactorState, ds: nat -> StepDraws, t: Tables, m: Maths)
    requires t.Valid() && m.Lawful() && DrawsInRange(ds) && AllConsistent(rs.neutrons)
    ensures var r := Swept(rs, ds, t, m);
      |rs.neutrons| <= |r.neutrons| && AllConsistent(r.neutrons) &&
      (forall j :: 0 <= j < |rs.neutrons| ==> LaterInWalk(rs.neutrons[j], r.neutrons[j])) &&
      (forall j :: |rs.neutrons| <= j < |r.neutrons| ==> Unstepped(r.neutrons[j]))
  {
    var after := Advanced(rs.neutrons, ds, t, m);
    var tally := ScanTally(rs.neutrons, after, |after|, m, rs.thermal);
    forall j | 0 <= j < |rs.neutrons|
      ensures Consistent(after[j]) && LaterInWalk(rs.neutrons[j], after[j])
    {
      AdvancedAt(rs.neutrons, ds, t, m, j);
      TurnOfConsistent(rs.neutrons[j], ds(j), t, m);
    }
    ScanOffspringUnstepped(rs.neutrons, after, |after|, m, rs.thermal);
    var r := Swept(rs, ds, t, m);
    assert r.neutrons == after + tally.offspring;
    forall j | |rs.neutrons| <= j < |r.neutrons|
      ensures Unstepped(r.neutrons[j]) && Consistent(r.neutrons[j])
    {
      assert r.neutrons[j] == tally.offspring[j - |rs.neutrons|];
    }
  }

  /** `calcCrit` keeps k_eff in (0, 2] when at most two neutrons are gained per lost one. */
  lemma CalcCritBounded(kEff: real, gain: nat, loss: nat)
    requires 0.0 < kEff <= 2.0 && gain <= 2 * loss
    ensures 0.0 < CalcCritSpec(kEff, gain, loss) <= 2.0
  {
    if gain != 0 && loss != 0 {
      var g, l := gain as real, loss as real;
      DivMonotone(g, 2.0 * l, l);
      assert (2.0 * l) / l == 2.0;
      DivMonotone(0.0, g, l);
      assert 0.0 / l < g / l;
    }
  }

  /** A k_eff in (0, 2]. */
  predicate CritInRange(k: real)
  {
    0.0 < k <= 2.0
  }

  /** Every k_eff of a history is in (0, 2]. */
  ghost predicate HistoryInRange(ks: seq<real>)
  {
    forall k :: 0 <= k < |ks| ==> CritInRange(ks[k])
  }

  /** The reactor state the step loop keeps: consistent neutrons, and the current and every recorded k_eff in (0, 2]. */
  ghost predicate Sane(rs: ReactorState)
  {
    AllConsistent(rs.neutrons) && CritInRange(rs.kEff) && HistoryInRange(rs.kEffData)
  }

  lemma HistoryAppend(ks: seq<real>, k: real)
    requires HistoryInRange(ks) && CritInRange(k)
    ensures HistoryInRange(ks + [k])
  {
  }

  /** A sweep keeps the reactor sane. */
  lemma SweptSane(rs: ReactorState, ds: nat -> StepDraws, t: Tables, m: Maths)
    requires t.Valid() && m.Lawful() && DrawsInRange(ds) && Sane(rs)
    ensures Sane(Swept(rs, ds, t, m))
  {
    var after := Advanced(rs.neutrons, ds, t, m);
    var tally := ScanTally(rs.neutrons, after, |after|, m, rs.thermal);
    forall j | 0 <= j < |after|
      ensures TurnBalanced(rs.neutrons[j], after[j], m, rs.thermal)
    {
      AdvancedAt(rs.neutrons, ds, t, m, j);
      TurnGainBounded(rs.neutrons[j], ds(j), t, m, rs.thermal);
    }
    ScanGainBounded(rs.neutrons, after, |after|, m, rs.thermal);
    CalcCritBounded(rs.kEff, tally.gain, tally.loss);
    HistoryAppend(rs.kEffData, CalcCritSpec(rs.kEff, tally.gain, tally.loss));
    SweptNeutrons(rs, ds, t, m);
  }

  // ---------------------------------------------------------------------
  // generateList
  // ---------------------------------------------------------------------

  /**
   * `generateList` appends exactly one neutron per placement draw, each
   * thermal and not yet stepped, and one energy holder with a (thermal
   * energy, its speed) entry per neutron; nothing else changes.
   */
  lemma GeneratedShape(rs: ReactorState, m: Maths, places: seq<Vec>)
    ensures var r := Generated(rs, m, places);
      |r.neutrons| == |rs.neutrons| + |places| && r.neutrons[..|rs.neutrons|] == rs.neutrons &&
      (forall j :: |rs.neutrons| <= j < |r.neutrons| ==> Unstepped(r.neutrons[j]) && r.neutrons[j].energy == ThermalEnergy) &&
      r.energyList == rs.energyList + [StarterEntries(m, |places|)] &&
      |StarterEntries(m, |places|)| == |places| &&
      (forall k :: 0 <= k < |places| ==> StarterEntries(m, |places|)[k] == SpeedPair(ThermalEnergy, EnergySpeed(m, ThermalEnergy))) &&
      r.(neutrons := rs.neutrons, energyList := rs.energyList) == rs
  {
    var r := Generated(rs, m, places);
    assert r.neutrons == rs.neutrons + Starters(m, rs.dimensions, places);
    assert (rs.neutrons + Starters(m, rs.dimensions, places))[..|rs.neutrons|] == rs.neutrons;
  }

  /** Unit placement draws put every starting neutron inside the reactor's rectangle. */
  lemma GeneratedInside(rs: ReactorState, m: Maths, places: seq<Vec>)
    requires 0.0 < rs.dimensions.x && 0.0 < rs.dimensions.y
    requires forall k :: 0 <= k < |places| ==> 0.0 <= places[k].x < 1.0 && 0.0 <= places[k].y < 1.0
    ensures var r := Generated(rs, m, places);
      forall j :: |rs.neutrons| <= j < |r.neutrons| ==>
        0.0 <= r.neutrons[j].pos.x < rs.dimensions.x && 0.0 <= r.neutrons[j].pos.y < rs.dimensions.y
  {
    forall k | 0 <= k < |places|
      ensures var s := Starter(m, rs.dimensions, places[k]);
        0.0 <= s.pos.x < rs.dimensions.x && 0.0 <= s.pos.y < rs.dimensions.y
    {
      PlacedInside(Spawned(m, ThermalEnergy, Vec(0.0, 0.0)), rs.dimensions.x, rs.dimensions.y, places[k]);
    }
  }
}
