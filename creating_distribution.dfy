/**
 * The table-building arithmetic behind the simulation's samplers: the
 * prompt-fission energy grid and its cumulative distribution, the
 * moderator scattering-ratio grids and their cumulative distributions, and
 * the conversion of tabulated microscopic cross sections to macroscopic
 * ones. The densities' transcendental parts come from `Maths`; the
 * interpolation that inverts each table into a sampler is not modelled, so
 * the finished samplers reach the neutron as the inputs collected in
 * `Tables`.
 */
module CreatingDistribution {
  import opened Numerics

  const MeV: real := 1e6

  /** The smallest integer not below `x`. */
  function Ceil(x: real): int
  {
    -((-x).Floor)
  }

  /**
   * `numpy.arange(start, stop, step)` over exact reals: start, start + step,
   * ... while below stop, which is ceil((stop - start) / step) points.
   */
  function Arange(start: real, stop: real, step: real): seq<real>
    requires 0.0 < step
  {
    var n := if start < stop then Ceil((stop - start) / step) else 0;
    seq(if n < 0 then 0 else n, i => start + i as real * step)
  }

  /** The grid is evenly spaced from `start`, stays below `stop`, and stops only once it reaches `stop`. */
  lemma ArangeBounds(start: real, stop: real, step: real)
    requires 0.0 < step
    ensures var r := Arange(start, stop, step);
      (forall i :: 0 <= i < |r| ==> r[i] == start + i as real * step && start <= r[i] < stop) &&
      stop <= start + |r| as real * step
  {
    var r := Arange(start, stop, step);
    if start < stop {
      var x := (stop - start) / step;
      assert x * step == stop - start;
      var f := (-x).Floor;
      assert f as real <= -x < f as real + 1.0;
      assert |r| == -f;
      assert x <= |r| as real < x + 1.0;
      GridCovers(start, stop, step, x, |r| as real);
      forall i | 0 <= i < |r|
        ensures start <= r[i] < stop
      {
        assert (i as real) < x;
        GridPointBounds(start, stop, step, x, i);
      }
    }
  }

  /** `n` steps of `step` from `start` reach `stop` once `n` is at least (stop - start) / step. */
  lemma GridCovers(start: real, stop: real, step: real, x: real, n: real)
    requires 0.0 < step && x * step == stop - start && x <= n
    ensures stop <= start + n * step
  {
    MulMonotone(step, x, n);
    assert step * x == x * step;
    assert step * n == n * step;
  }

  /** A grid point `i` steps from `start`, with `i` below (stop - start) / step, lies in [start, stop). */
  lemma GridPointBounds(start: real, stop: real, step: real, x: real, i: nat)
    requires 0.0 < step && x * step == stop - start && (i as real) < x
    ensures start <= start + i as real * step < stop
  {
    MulStrictRight(i as real, x, step);
  }

  lemma MulStrict(a: real, b: real, c: real)
    requires 0.0 < a && b < c
    ensures a * b < a * c
  {
  }

  lemma MulStrictRight(b: real, c: real, a: real)
    requires 0.0 < a && 0.0 <= b < c
    ensures 0.0 <= b * a < c * a
  {
    MulMonotone(a, 0.0, b);
    MulStrict(a, b, c);
  }

  // ---------------------------------------------------------------------
  // Prompt neutron spectrum
  // ---------------------------------------------------------------------

  /** The two fission-spectrum forms; the simulation's tables use `Watt`. */
  datatype SpectrumMethod = Watt | Cranberg

  /** Prompt fission neutron density at energy `e` (eV). */
  function PromptNeutronPDF(m: Maths, spectrum: SpectrumMethod, e: real): real
  {
    match spectrum
    case Watt => 0.484 * m.sinh(m.sqrt(2.0 * e / MeV)) * m.exp(-e / MeV)
    case Cranberg => 0.4527 * m.sinh(m.sqrt(2.29 * e / MeV)) * m.exp(-e / (0.965 * MeV))
  }

  /** The density is non-negative on non-negative energies and positive above zero. */
  lemma PromptNeutronPDFSign(m: Maths, spectrum: SpectrumMethod, e: real)
    requires m.Lawful() && 0.0 <= e
    ensures 0.0 <= PromptNeutronPDF(m, spectrum, e)
    ensures 0.0 < e ==> 0.0 < PromptNeutronPDF(m, spectrum, e)
  {
    match spectrum
    case Watt => SpectrumFormSign(m, 0.484, 2.0 * e / MeV, -e / MeV);
    case Cranberg => SpectrumFormSign(m, 0.4527, 2.29 * e / MeV, -e / (0.965 * MeV));
  }

  /** Both spectra have the form c · sinh(√a) · exp(b), with c positive and a growing with the energy. */
  lemma SpectrumFormSign(m: Maths, c: real, a: real, b: real)
    requires m.Lawful() && 0.0 < c && 0.0 <= a
    ensures 0.0 <= c * m.sinh(m.sqrt(a)) * m.exp(b)
    ensures 0.0 < a ==> 0.0 < c * m.sinh(m.sqrt(a)) * m.exp(b)
  {
    var sh := m.sinh(m.sqrt(a));
    MulMonotone(c, 0.0, sh);
    MulMonotone(m.exp(b), 0.0, c * sh);
    if 0.0 < a {
      SqrtPositive(m, a);
      MulStrict(c, 0.0, sh);
      MulStrict(m.exp(b), 0.0, c * sh);
    }
  }

  /** The densities `probs` of the source, one per grid energy. */
  function PromptDensities(m: Maths, spectrum: SpectrumMethod, energies: seq<real>): seq<real>
  {
    seq(|energies|, i requires 0 <= i < |energies| => PromptNeutronPDF(m, spectrum, energies[i]))
  }

  /** The prompt-fission energy grid: 0 eV to 12 MeV in steps of 100 eV. */
  function PromptGrid(): seq<real>
  {
    Arange(0.0, 12e6, 1e2)
  }

  /**
   * Cumulative prompt-fission distribution over `energies`: the densities
   * are collected, divided by their sum, and accumulated. Entry `i` is the
   * share of the total density at or below grid point `i`; over non-negative
   * energies the result is a distribution function ending at 1.
   */
  method CalcPromptNeutronCDF(m: Maths, spectrum: SpectrumMethod, energies: seq<real>) returns (cdf: seq<real>)
    requires Sum(PromptDensities(m, spectrum, energies)) != 0.0
    ensures |cdf| == |energies|
    ensures var probs := PromptDensities(m, spectrum, energies);
      forall i :: 0 <= i < |cdf| ==> cdf[i] == Sum(probs[..i + 1]) / Sum(probs)
    ensures m.Lawful() && (forall i :: 0 <= i < |energies| ==> 0.0 <= energies[i]) ==>
      Monotone(cdf) && cdf[|cdf| - 1] == 1.0
  {
    var probs: seq<real> := [];
    for i := 0 to |energies|
      invariant probs == PromptDensities(m, spectrum, energies[..i])
    {
      probs := probs + [PromptNeutronPDF(m, spectrum, energies[i])];
    }
    assert energies[..|energies|] == energies;
    var sumProbs := Sum(probs);
    cdf := CumSum(Normalize(probs, sumProbs));
    CumSumNormalizedIsShare(probs, sumProbs);
    if m.Lawful() && (forall i :: 0 <= i < |energies| ==> 0.0 <= energies[i]) {
      PromptDensitiesNonNegative(m, spectrum, energies);
      SumNonNegative(probs);
      NormalizedCumSumIsCdf(probs);
    }
  }

  /** Over non-negative energies every density is non-negative. */
  lemma PromptDensitiesNonNegative(m: Maths, spectrum: SpectrumMethod, energies: seq<real>)
    requires m.Lawful() && forall i :: 0 <= i < |energies| ==> 0.0 <= energies[i]
    ensures NonNegative(PromptDensities(m, spectrum, energies))
  {
    var probs := PromptDensities(m, spectrum, energies);
    forall i | 0 <= i < |probs| ensures 0.0 <= probs[i] {
      PromptNeutronPDFSign(m, spectrum, energies[i]);
    }
  }

  /** On the simulation's grid every energy is non-negative and the density sum is positive. */
  lemma PromptGridAdmissible(m: Maths, spectrum: SpectrumMethod)
    requires m.Lawful()
    ensures forall i :: 0 <= i < |PromptGrid()| ==> 0.0 <= PromptGrid()[i]
    ensures 0.0 < Sum(PromptDensities(m, spectrum, PromptGrid()))
  {
    var grid := PromptGrid();
    ArangeBounds(0.0, 12e6, 1e2);
    assert 2 <= |grid|;
    var probs := PromptDensities(m, spectrum, grid);
    assert NonNegative(probs) by {
      forall i | 0 <= i < |probs| ensures 0.0 <= probs[i] {
        PromptNeutronPDFSign(m, spectrum, grid[i]);
      }
    }
    PromptNeutronPDFSign(m, spectrum, grid[1]);
    SumPositive(probs, 1);
  }

  // ---------------------------------------------------------------------
  // Moderator scattering kernels
  // ---------------------------------------------------------------------

  /** Boltzmann's constant in eV/K. */
  const Boltzmann: real := 8.617333262e-5

  /** Incident energy (eV) against which the outgoing-energy grid is expressed as a ratio. */
  const IncidentEnergy: real := 1e-3

  /** Down-scatter density at outgoing energy `ePrime` and moderator temperature `temp`. */
  function ModeratorFuncDown(m: Maths, ePrime: real, temp: real): real
    requires temp != 0.0
  {
    m.erf(m.sqrt(ePrime / (Boltzmann * temp)))
  }

  /** Up-scatter density from incident energy `e` to outgoing energy `ePrime`. */
  function ModeratorFuncUp(m: Maths, e: real, ePrime: real, temp: real): real
    requires temp != 0.0
  {
    m.exp((e - ePrime) / (Boltzmann * temp)) * m.erf(m.sqrt(e / (Boltzmann * temp)))
  }

  /** The outgoing-energy grid: above the incident energy for up-scatter, below it otherwise. */
  function ModeratorGrid(kind: string): seq<real>
  {
    if kind == "upScatter" then Arange(1e-3, 4e-3, 1e-7) else Arange(1e-7, 1e-3, 1e-7)
  }

  /** Both grids are non-empty; up-scatter energies lie in [1, 4) meV, down-scatter ones in (0, 1) meV. */
  lemma ModeratorGridBounds(kind: string)
    ensures var grid := ModeratorGrid(kind);
      0 < |grid| &&
      (kind == "upScatter" ==> forall i :: 0 <= i < |grid| ==> 1e-3 <= grid[i] < 4e-3) &&
      (kind != "upScatter" ==> forall i :: 0 <= i < |grid| ==> 1e-7 <= grid[i] < 1e-3)
  {
    if kind == "upScatter" {
      ArangeBounds(1e-3, 4e-3, 1e-7);
    } else {
      ArangeBounds(1e-7, 1e-3, 1e-7);
    }
  }

  /** The outgoing energies of the grid as ratios to the 1 meV incident energy. */
  function ModeratorRatios(kind: string): seq<real>
  {
    var grid := ModeratorGrid(kind);
    seq(|grid|, i requires 0 <= i < |grid| => grid[i] / IncidentEnergy)
  }

  /** Up-scatter ratios lie in [1, 4) and down-scatter ratios in (0, 1). */
  lemma ModeratorRatioBounds(kind: string)
    ensures var ratio := ModeratorRatios(kind);
      0 < |ratio| &&
      (kind == "upScatter" ==> forall i :: 0 <= i < |ratio| ==> 1.0 <= ratio[i] < 4.0) &&
      (kind != "upScatter" ==> forall i :: 0 <= i < |ratio| ==> 0.0 < ratio[i] < 1.0)
  {
    ModeratorGridBounds(kind);
  }

  function ModeratorDensity(m: Maths, kind: string, temp: real, ePrime: real): real
    requires temp != 0.0
  {
    if kind == "upScatter" then ModeratorFuncUp(m, IncidentEnergy, ePrime, temp)
    else ModeratorFuncDown(m, ePrime, temp)
  }

  /** At a positive temperature both kernels are positive on positive outgoing energies. */
  lemma ModeratorDensityPositive(m: Maths, kind: string, temp: real, ePrime: real)
    requires m.Lawful() && 0.0 < temp && 0.0 < ePrime
    ensures 0.0 < ModeratorDensity(m, kind, temp, ePrime)
  {
    var kt := Boltzmann * temp;
    assert 0.0 < kt;
    if kind == "upScatter" {
      SqrtPositive(m, IncidentEnergy / kt);
      var a := m.exp((IncidentEnergy - ePrime) / kt);
      var b := m.erf(m.sqrt(IncidentEnergy / kt));
      assert 0.0 < a && 0.0 < b;
      MulStrict(a, 0.0, b);
    } else {
      SqrtPositive(m, ePrime / kt);
    }
  }

  /** The densities `enDensity` of the source: the kernel of `kind` at every grid energy. */
  function ModeratorDensities(m: Maths, kind: string, temp: real): seq<real>
    requires temp != 0.0
  {
    var grid := ModeratorGrid(kind);
    seq(|grid|, i requires 0 <= i < |grid| => ModeratorDensity(m, kind, temp, grid[i]))
  }

  /** The densities over the whole grid are positive, so their sum is too. */
  lemma ModeratorDensitiesPositive(m: Maths, kind: string, temp: real)
    requires m.Lawful() && 0.0 < temp
    ensures var density := ModeratorDensities(m, kind, temp);
      0 < |density| && (forall i :: 0 <= i < |density| ==> 0.0 < density[i]) && 0.0 < Sum(density)
  {
    var grid := ModeratorGrid(kind);
    var density := ModeratorDensities(m, kind, temp);
    ModeratorGridBounds(kind);
    forall i | 0 <= i < |density| ensures 0.0 < density[i] {
      ModeratorDensityPositive(m, kind, temp, grid[i]);
    }
    SumPositive(density, 0);
  }

  /**
   * Normalising the moderator densities and accumulating them gives a
   * distribution function over the grid: entry `i` is the share of the
   * density at or below grid point `i`, the entries never decrease, and the
   * last is 1.
   */
  lemma ModeratorCdfIsDistribution(m: Maths, kind: string, temp: real)
    requires m.Lawful() && 0.0 < temp
    ensures var density := ModeratorDensities(m, kind, temp);
      0.0 < Sum(density) &&
      var cdf := CumSum(Normalize(density, Sum(density)));
      |cdf| == |density| &&
      (forall i :: 0 <= i < |cdf| ==> cdf[i] == Sum(density[..i + 1]) / Sum(density)) &&
      Monotone(cdf) && cdf[|cdf| - 1] == 1.0
  {
    var density := ModeratorDensities(m, kind, temp);
    ModeratorDensitiesPositive(m, kind, temp);
    CumSumNormalizedIsShare(density, Sum(density));
    NormalizedCumSumIsCdf(density);
  }

  /**
   * The moderator table for `kind` ("upScatter", anything else meaning
   * down-scatter) at temperature `temp`: the energy ratios of the grid to
   * the 1 meV incident energy, the raw densities, and the running total of
   * the densities divided by their sum. `ModeratorRatioBounds` and
   * `ModeratorCdfIsDistribution` state what these lists are.
   */
  method CalcModeratorCDF(m: Maths, temp: real, kind: string)
    returns (ratio: seq<real>, cdf: seq<real>, density: seq<real>)
    requires m.Lawful() && 0.0 < temp
    ensures ratio == ModeratorRatios(kind)
    ensures density == ModeratorDensities(m, kind, temp)
    ensures 0.0 < Sum(density) && cdf == CumSum(Normalize(density, Sum(density)))
  {
    var en := IncidentEnergy;
    var enPrime := ModeratorGrid(kind);
    ratio := [];
    density := [];
    for i := 0 to |enPrime|
      invariant ratio == ModeratorRatios(kind)[..i]
      invariant density == ModeratorDensities(m, kind, temp)[..i]
    {
      assert ModeratorRatios(kind)[..i + 1] == ratio + [enPrime[i] / en];
      ratio := ratio + [enPrime[i] / en];
      assert ModeratorDensities(m, kind, temp)[..i + 1] ==
             density + [ModeratorDensity(m, kind, temp, enPrime[i])];
      if kind == "upScatter" {
        density := density + [ModeratorFuncUp(m, en, enPrime[i], temp)];
      } else {
        density := density + [ModeratorFuncDown(m, enPrime[i], temp)];
      }
    }
    assert ratio == ModeratorRatios(kind) && density == ModeratorDensities(m, kind, temp);
    ModeratorDensitiesPositive(m, kind, temp);
    cdf := CumSum(Normalize(density, Sum(density)));
  }

  /** The constant mean moderation ratio, which ignores its random argument. */
  function AverageMod(randNo: real): (r: real)
    ensures 0.0 < r < 1.0
  {
    0.9
  }

  lemma AverageModIgnoresDraw(a: real, b: real)
    ensures AverageMod(a) == AverageMod(b) == 0.9
  {
  }

  // ---------------------------------------------------------------------
  // Cross-section tables
  // ---------------------------------------------------------------------

  /** Fuel (uranium) number density: 9.48e20 atoms/cm³ at 39% of the mixture. */
  const FuelDensity: real := 9.48e20 * 0.39

  /** Moderator (hydrogen) number density: 66.7e21 atoms/cm³ at 61% of the mixture. */
  const ModeratorNumberDensity: real := 66.7e21 * 0.61

  /** Square centimetres per barn. */
  const BarnCm: real := 1e-24

  /** The five channels in table order: fission, capture, U-scatter, U-total, H-scatter. */
  const Channels: seq<string> := ["F", "C", "S", "T", "H"]

  /** Number density per channel: the first four channels are fuel, the last moderator. */
  const NumDensity: seq<real> := [FuelDensity, FuelDensity, FuelDensity, FuelDensity, ModeratorNumberDensity]

  /** One row of a tabulated cross-section file: energy in MeV, cross section in barns. */
  datatype Row = Row(energy: real, sigma: real)

  /** A scaled table: energies in eV and macroscopic cross sections in cm⁻¹. */
  datatype Table = Table(energies: seq<real>, crossSection: seq<real>)

  ghost predicate ScaledFrom(t: Table, rows: seq<Row>, density: real)
  {
    |t.energies| == |rows| && |t.crossSection| == |rows| &&
    forall k :: 0 <= k < |rows| ==>
      t.energies[k] == rows[k].energy * MeV && t.crossSection[k] == rows[k].sigma * BarnCm * density
  }

  /** Scales the rows of one channel's file in order, one table entry per row. */
  method ScaleRows(rows: seq<Row>, density: real) returns (t: Table)
    ensures ScaledFrom(t, rows, density)
  {
    var energies: seq<real> := [];
    var crossSection: seq<real> := [];
    for k := 0 to |rows|
      invariant ScaledFrom(Table(energies, crossSection), rows[..k], density)
    {
      energies := energies + [rows[k].energy * MeV];
      crossSection := crossSection + [rows[k].sigma * BarnCm * density];
    }
    assert rows[..|rows|] == rows;
    t := Table(energies, crossSection);
  }

  /**
   * Builds the five channel tables from the five files' rows: channel `i`
   * is scaled by MeV and by barns-to-cm² times its number density.
   */
  method MakeCrossSections(files: seq<seq<Row>>) returns (tables: seq<Table>)
    requires |files| == |Channels|
    ensures |tables| == |Channels|
    ensures forall i :: 0 <= i < |Channels| ==> ScaledFrom(tables[i], files[i], NumDensity[i])
  {
    tables := [];
    for i := 0 to |Channels|
      invariant |tables| == i
      invariant forall j :: 0 <= j < i ==> ScaledFrom(tables[j], files[j], NumDensity[j])
    {
      var t := ScaleRows(files[i], NumDensity[i]);
      tables := tables + [t];
    }
  }

  ghost predicate StrictlyIncreasing(xs: seq<real>)
  {
    forall i, j :: 0 <= i < j < |xs| ==> xs[i] < xs[j]
  }

  /**
   * Scaling keeps what interpolation over a table needs: energies sorted in
   * the file stay strictly increasing, and non-negative cross sections stay
   * non-negative, for every channel's positive number density.
   */
  lemma ScalingPreservesTableShape(t: Table, rows: seq<Row>, density: real)
    requires ScaledFrom(t, rows, density) && 0.0 < density
    requires forall i, j :: 0 <= i < j < |rows| ==> rows[i].energy < rows[j].energy
    ensures StrictlyIncreasing(t.energies)
    ensures (forall k :: 0 <= k < |rows| ==> 0.0 <= rows[k].sigma) ==>
      forall k :: 0 <= k < |rows| ==> 0.0 <= t.crossSection[k]
  {
    forall i, j | 0 <= i < j < |rows|
      ensures t.energies[i] < t.energies[j]
    {
      MulStrict(MeV, rows[i].energy, rows[j].energy);
    }
    if forall k :: 0 <= k < |rows| ==> 0.0 <= rows[k].sigma {
      forall k | 0 <= k < |rows|
        ensures 0.0 <= t.crossSection[k]
      {
        MulMonotone(BarnCm * density, 0.0, rows[k].sigma);
      }
    }
  }

  /**
   * The sampler functions the neutron consults, as built when the distribution module is imported: the
   * five interpolated cross sections in `Channels` order, the inverted
   * prompt-fission distribution, and the moderation list (down-scatter,
   * up-scatter, average, logarithmic average).
   */
  datatype Tables = Tables(
    crossSections: seq<real -> real>,
    promptSampler: real -> real,
    moderation: seq<real -> real>)
  {
    ghost predicate Valid()
    {
      |crossSections| == 5 && |moderation| == 4 &&
      (forall i, e :: 0 <= i < 5 ==> 0.0 <= crossSections[i](e)) &&
      (forall e :: 0.0 < crossSections[3](e) + crossSections[4](e))
    }
  }
}
