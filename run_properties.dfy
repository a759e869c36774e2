/**
 * What many sweeps and `startUp` guarantee, proved from the one-sweep
 * properties of `ReactorProperties` one sweep at a time.
 */
module RunProperties {
  import opened Numerics
  import opened CreatingDistribution
  import opened NeutronModel
  import opened ReactorModel
  import opened ReactorProperties

  // ---------------------------------------------------------------------
  // Many sweeps and start-up
  // ---------------------------------------------------------------------

  /** `y` is `x` followed by `n` more entries. */
  ghost predicate Extends<T>(x: seq<T>, y: seq<T>, n: nat)
  {
    |y| == |x| + n && forall i :: 0 <= i < |x| ==> y[i] == x[i]
  }

  lemma ExtendsTransitive<T>(x: seq<T>, y: seq<T>, z: seq<T>, n: nat, k: nat)
    requires Extends(x, y, n) && Extends(y, z, k)
    ensures Extends(x, z, n + k)
  {
  }

  /**
   * `b` is `a` after `n` sweeps as far as the histories and the
   * configuration go: `n` more k_eff values and `n` more energy holders
   * after the earlier ones, and the same start count, step count,
   * thermal flag and dimensions.
   */
  ghost predicate Grown(a: ReactorState, b: ReactorState, n: nat)
  {
    Extends(a.kEffData, b.kEffData, n) && Extends(a.energyList, b.energyList, n) &&
    b.(neutrons := a.neutrons, kEff := a.kEff, kEffData := a.kEffData, energyList := a.energyList) == a
  }

  lemma GrownTransitive(a: ReactorState, b: ReactorState, c: ReactorState, n: nat)
    requires Grown(a, b, n) && Grown(b, c, 1)
    ensures Grown(a, c, n + 1)
  {
    ExtendsTransitive(a.kEffData, b.kEffData, c.kEffData, n, 1);
    ExtendsTransitive(a.energyList, b.energyList, c.energyList, n, 1);
  }

  /** A state is itself after no sweeps. */
  lemma GrownNothing(rs: ReactorState)
    ensures Grown(rs, rs, 0)
  {
  }

  /** Each sweep of a run appends one k_eff and one energy holder and keeps the configuration. */
  lemma RunStepGrows(rs: ReactorState, draws: nat -> nat -> StepDraws, n: nat, t: Tables, m: Maths)
    requires Admissible(t, m, draws) && 0 < n && Grown(rs, Run(rs, draws, n - 1, t, m), n - 1)
    ensures Grown(rs, Run(rs, draws, n, t, m), n)
  {
    var prev := Run(rs, draws, n - 1, t, m);
    SweptShape(prev, draws(n - 1), t, m);
    GrownTransitive(rs, prev, Run(rs, draws, n, t, m), n - 1);
  }

  /**
   * `n` sweeps append exactly `n` entries to the k_eff history and to the
   * energy history, keeping the earlier entries, and leave the
   * configuration fields alone.
   */
  lemma {:induction false} RunHistories(rs: ReactorState, draws: nat -> nat -> StepDraws, n: nat, t: Tables, m: Maths)
    requires Admissible(t, m, draws)
    ensures Grown(rs, Run(rs, draws, n, t, m), n)
  {
    if n == 0 {
      GrownNothing(rs);
    } else {
      RunHistories(rs, draws, n - 1, t, m);
      RunStepGrows(rs, draws, n, t, m);
    }
  }

  /** Each neutron of `b` up to the length of `a` is the one of `a` at the same place, later in its walk. */
  ghost predicate WalkedOn(a: seq<NeutronState>, b: seq<NeutronState>)
  {
    |a| <= |b| && forall j :: 0 <= j < |a| ==> LaterInWalk(a[j], b[j])
  }

  lemma LaterInWalkTransitive(a: NeutronState, b: NeutronState, c: NeutronState)
    requires LaterInWalk(a, b) && LaterInWalk(b, c)
    ensures LaterInWalk(a, c)
  {
  }

  lemma WalkedOnTransitive(a: seq<NeutronState>, b: seq<NeutronState>, c: seq<NeutronState>)
    requires WalkedOn(a, b) && WalkedOn(b, c)
    ensures WalkedOn(a, c)
  {
    forall j | 0 <= j < |a|
      ensures LaterInWalk(a[j], c[j])
    {
      LaterInWalkTransitive(a[j], b[j], c[j]);
    }
  }

  /** The neutrons of `a` are still in `b`, in place and later in their walks, and all of `b`'s are consistent. */
  ghost predicate Kept(a: ReactorState, b: ReactorState)
  {
    WalkedOn(a.neutrons, b.neutrons) && AllConsistent(b.neutrons)
  }

  /** Each sweep of a run keeps the neutrons of a consistent population. */
  lemma RunStepKept(rs: ReactorState, draws: nat -> nat -> StepDraws, n: nat, t: Tables, m: Maths)
    requires Admissible(t, m, draws) && 0 < n
    requires AllConsistent(Run(rs, draws, n - 1, t, m).neutrons)
    ensures Kept(Run(rs, draws, n - 1, t, m), Run(rs, draws, n, t, m))
  {
    SweptNeutrons(Run(rs, draws, n - 1, t, m), draws(n - 1), t, m);
  }

  /** Each sweep of a run keeps a sane reactor sane. */
  lemma RunStepSane(rs: ReactorState, draws: nat -> nat -> StepDraws, n: nat, t: Tables, m: Maths)
    requires Admissible(t, m, draws) && 0 < n
    requires Sane(Run(rs, draws, n - 1, t, m))
    ensures Sane(Run(rs, draws, n, t, m))
  {
    SweptSane(Run(rs, draws, n - 1, t, m), draws(n - 1), t, m);
  }

  /**
   * Over `n` sweeps of a consistent population the neutron list only
   * grows: every neutron keeps its place and is later in its own walk,
   * and every neutron stays consistent.
   */
  lemma {:induction false} RunKeepsNeutrons(rs: ReactorState, draws: nat -> nat -> StepDraws, n: nat, t: Tables, m: Maths)
    requires Admissible(t, m, draws) && AllConsistent(rs.neutrons)
    ensures Kept(rs, Run(rs, draws, n, t, m))
  {
    if n == 0 {
      forall j | 0 <= j < |rs.neutrons|
        ensures LaterInWalk(rs.neutrons[j], rs.neutrons[j])
      {
      }
      assert WalkedOn(rs.neutrons, rs.neutrons);
    } else {
      RunKeepsNeutrons(rs, draws, n - 1, t, m);
      RunStepKept(rs, draws, n, t, m);
      WalkedOnTransitive(rs.neutrons, Run(rs, draws, n - 1, t, m).neutrons, Run(rs, draws, n, t, m).neutrons);
    }
  }

  /** Every sweep keeps the reactor sane. */
  lemma {:induction false} RunSane(rs: ReactorState, draws: nat -> nat -> StepDraws, n: nat, t: Tables, m: Maths)
    requires Admissible(t, m, draws) && Sane(rs)
    ensures Sane(Run(rs, draws, n, t, m))
  {
    if n > 0 {
      RunSane(rs, draws, n - 1, t, m);
      RunStepSane(rs, draws, n, t, m);
    }
  }

  /** `generateList` on a new reactor: k_eff history [1], one holder of `|places|` entries, consistent neutrons. */
  lemma GeneratedFromFresh(rs: ReactorState, m: Maths, places: seq<Vec>)
    requires rs == Fresh(rs.neutronStart, rs.stepCount, rs.kEff, rs.dimensions, rs.thermal)
    ensures var g := Generated(rs, m, places);
      g.kEffData == [1.0] && |g.energyList| == 1 && |g.energyList[0]| == |places| &&
      |g.neutrons| == |places| && AllConsistent(g.neutrons) && g.stepCount == rs.stepCount &&
      (CritInRange(rs.kEff) ==> Sane(g))
  {
    GeneratedShape(rs, m, places);
  }

  /**
   * `startUp` on a newly constructed reactor: the k_eff history is 1
   * followed by one value per step, the energy history has the starting
   * holder (one entry per starting neutron) followed by one holder per
   * step, at least the starting neutrons remain, all of them consistent,
   * and when the initial k_eff is in (0, 2] every recorded k_eff is too.
   */
  lemma StartedUpFromFresh(neutronStart: nat, stepCount: nat, kEff: real, dimensions: Vec, thermal: bool,
                           m: Maths, places: seq<Vec>, draws: nat -> nat -> StepDraws, t: Tables)
    requires Admissible(t, m, draws) && |places| == neutronStart
    ensures var r := StartedUp(Fresh(neutronStart, stepCount, kEff, dimensions, thermal), m, places, draws, t);
      |r.kEffData| == stepCount + 1 && r.kEffData[0] == 1.0 &&
      |r.energyList| == stepCount + 1 && |r.energyList[0]| == neutronStart &&
      neutronStart <= |r.neutrons| && AllConsistent(r.neutrons) &&
      (CritInRange(kEff) ==> HistoryInRange(r.kEffData))
  {
    var rs := Fresh(neutronStart, stepCount, kEff, dimensions, thermal);
    var g := Generated(rs, m, places);
    GeneratedFromFresh(rs, m, places);
    RunHistories(g, draws, stepCount, t, m);
    RunKeepsNeutrons(g, draws, stepCount, t, m);
    var r := Run(g, draws, stepCount, t, m);
    assert r.kEffData[..1] == g.kEffData == [1.0];
    assert r.energyList[..1] == g.energyList;
    if CritInRange(kEff) {
      assert Sane(g);
      RunSane(g, draws, stepCount, t, m);
    }
  }
}
