# Neutron random walk in a thermal reactor — a Dafny model

The simulation follows neutrons through a two-dimensional reactor made of
uranium fuel and a hydrogen moderator. Each neutron takes a random walk.
A step moves the neutron a free-flight length, records where it went, and
fires exactly one event chosen from the interpolated cross sections:

- fission, which absorbs the neutron and leaves one or two prompt-neutron energies;
- capture, which absorbs the neutron;
- elastic scattering off uranium, which keeps between α and all of the energy;
- scattering off hydrogen, which up-scatters below 0.05 eV and down-scatters at or above it.

A neutron at or below 1e-5 eV is absorbed without an event. The reactor
seeds `neutronStart` thermal neutrons at uniform positions and then sweeps
`stepCount` times. In each sweep every free neutron takes one step, and
the sweep counts:

- neutrons gained, which are the fission offspring;
- neutrons lost, which are fissions plus captures;
- one `[energy, speed]` entry per free neutron.

The sweep then appends the offspring and updates k_eff to gain/loss when
both are non-zero. Importing the distribution module builds the sampling tables:

- the cumulative prompt-fission spectrum;
- the moderator up- and down-scatter cumulative distributions;
- the macroscopic cross sections, scaled from tabulated microscopic ones.

The project has seven modules, one per file.

- `Numerics` (numerics.dfy) holds `Option`, the plane vector `Vec` and running sums. It also holds the library functions (cos, sin, sqrt, exp, sinh, erf) as an abstract `Maths` value, whose predicate `Lawful` lists the facts the proofs use.
- `CreatingDistribution` (creating_distribution.dfy) holds the table-building code of creatingDistribution.py. The loops are methods proved against specification functions: the density list, its normalised cumulative sum, and the scaled rows.
- `NeutronModel` (neutron.dfy) holds the `Neutron` class with the source's fields, updated in place. The value `NeutronState` and the functions over it (`Stepped`, `Moved`, `AfterChoose`, `AfterFission`, ...) specify each method. Every method is proved to leave `State()` equal to its specification applied to the old state.
- `NeutronProperties` (neutron_properties.dfy) holds what one step guarantees.
- `ReactorModel` (reactor.dfy) holds the `Reactor` class. Its methods are proved against `Swept`, `Run`, `Generated` and `StartedUp`, which specify one sweep, `n` sweeps, `generateList` and `startUp`.
- `ReactorProperties` (reactor_properties.dfy) holds what one sweep and `generateList` guarantee.
- `RunProperties` (run_properties.dfy) lifts the one-sweep guarantees to any number of sweeps and to `startUp`.

Every random draw comes in as a value. One step consumes a `StepDraws`, and
a sweep gives neutron `i` the draws `ds(i)`. Every property therefore holds
whatever the generator returns, provided the draws are in range.

Two consequences of the code that are easy to overlook:

- `startUp` itself calls `generateList` (reactor.py:60). The energy history of a fresh reactor therefore ends with `stepCount + 1` holders, not `stepCount`.
- The energy history gets an entry even for a sweep in which every neutron is already absorbed. In that sweep the holder is empty and k_eff is kept.

## Model

| member | source | states |
|---|---|---|
| Numerics.Sum | creatingDistribution.py:43 | the total of the values; SumNonNegative and SumNormalize state its properties |
| Numerics.SumNonNegative | creatingDistribution.py:43 | the total of non-negative values is non-negative |
| Numerics.Normalize | creatingDistribution.py:44 | every value divided by the non-zero total; SumNormalize and CumSumNormalizedIsShare state what it yields |
| Numerics.CumSum | creatingDistribution.py:44 | the cumulative array has one entry per input value |
| Numerics.CumSumIsPrefixSum | creatingDistribution.py:44 | entry i of the cumulative sum is the sum of the first i+1 values |
| Numerics.SumNormalize | creatingDistribution.py:43-44 | dividing every value by a non-zero total divides their sum by that total |
| Numerics.CumSumNormalizedIsShare | creatingDistribution.py:43-44 | entry i of the cumulative sum of the normalised values is the share of the first i+1 values in the total |
| Numerics.NormalizedCumSumIsCdf | creatingDistribution.py:43-44 | for non-negative values with a positive sum, the normalised cumulative sum is non-decreasing, lies in [0, 1] and ends at exactly 1 |
| Numerics.PrefixSumMonotone | creatingDistribution.py:44 | over non-negative values, a longer prefix never has a smaller sum |
| CreatingDistribution.Arange | creatingDistribution.py:24 | numpy's arange over exact reals; ArangeBounds states its spacing and bounds |
| CreatingDistribution.ArangeBounds | creatingDistribution.py:24 | the arange grid is evenly spaced from start, every point stays below stop, and the point after the last would reach stop |
| CreatingDistribution.PromptNeutronPDF | creatingDistribution.py:30-34 | the Watt or Cranberg fission density; PromptNeutronPDFSign states its sign |
| CreatingDistribution.PromptNeutronPDFSign | creatingDistribution.py:30-34 | for both spectrum forms the fission density is non-negative at non-negative energies and positive above zero |
| CreatingDistribution.CalcPromptNeutronCDF | creatingDistribution.py:36-46 | one cumulative value per energy; value i is the density share at or below energy i; over non-negative energies the result is non-decreasing and ends at 1 |
| CreatingDistribution.PromptGridAdmissible | creatingDistribution.py:23-24 | on the 0–12 MeV grid of 100 eV steps every energy is non-negative and the density sum is positive, so normalising is defined |
| CreatingDistribution.ModeratorGridBounds | creatingDistribution.py:121-139 | both outgoing-energy grids are non-empty; up-scatter energies lie in [1, 4) meV and down-scatter energies in (0, 1) meV |
| CreatingDistribution.ModeratorRatioBounds | creatingDistribution.py:119-146 | up-scatter ratios to the 1 meV incident energy lie in [1, 4) and down-scatter ratios in (0, 1) |
| CreatingDistribution.ModeratorFuncDown | creatingDistribution.py:110-111 | the down-scatter kernel; ModeratorDensityPositive states that it is positive on its grid |
| CreatingDistribution.ModeratorFuncUp | creatingDistribution.py:113-114 | the up-scatter kernel; ModeratorDensityPositive states that it is positive on its grid |
| CreatingDistribution.ModeratorDensityPositive | creatingDistribution.py:110-114 | both moderator densities are positive at every positive grid energy and positive temperature |
| CreatingDistribution.ModeratorDensitiesPositive | creatingDistribution.py:128-147 | the density list of either kind is non-empty, all positive, with a positive sum |
| CreatingDistribution.ModeratorCdfIsDistribution | creatingDistribution.py:135-153 | the moderator cumulative list has one entry per grid point, entry i is the density share up to point i, it is non-decreasing, and it ends at 1 |
| CreatingDistribution.CalcModeratorCDF | creatingDistribution.py:117-153 | the loop returns the grid's ratio list, the raw densities of the chosen kind, and their normalised cumulative sum, whose total is positive |
| CreatingDistribution.AverageMod | creatingDistribution.py:156-157 | the mean moderation ratio lies strictly between 0 and 1 |
| CreatingDistribution.AverageModIgnoresDraw | creatingDistribution.py:155-157 | the result is 0.9 whatever random argument is passed |
| CreatingDistribution.ScaleRows | creatingDistribution.py:82-90 | one table entry per file row, in file order: energy in MeV times 1e6, cross section in barns times 1e-24 times the number density |
| CreatingDistribution.MakeCrossSections | creatingDistribution.py:69-94 | five tables, one per channel F, C, S, T, H, each scaled from its own file by its own number density (uranium for the first four, hydrogen for H) |
| CreatingDistribution.ScalingPreservesTableShape | creatingDistribution.py:88-92 | scaling keeps increasing file energies strictly increasing and non-negative cross sections non-negative, which is what interpolation over the table needs |
| NeutronModel.EnergySpeed | neutron.py:68-69 | speed as 1.38e6·√E; EnergySpeedPositive, EnergySpeedAtOne, EnergySpeedSquared and EnergySpeedIncreasing state its properties |
| NeutronModel.EnergySpeedPositive | neutron.py:68-69 | a positive energy has a positive speed |
| NeutronModel.FissionEnergies | neutron.py:162-164 | one offspring energy per child, the k-th being the prompt sampler applied to the k-th uniform draw |
| NeutronModel.Neutron.constructor | neutron.py:14-47 | a new neutron has the speed of its energy, no event, its start point as its only position entry, an empty energy history and no offspring energies |
| NeutronModel.Neutron.SetPosition | neutron.py:55-61 | the neutron is placed at the uniform point of the rectangle and its position histories restart there; nothing else changes |
| NeutronModel.Neutron.RandomStep | neutron.py:73-107 | the new state is one step of the walk from the old one (absorb at the cut-off, else fly, log and fire one event) |
| NeutronModel.Neutron.Move | neutron.py:82-101 | the new state is the flight followed by its bookkeeping |
| NeutronModel.Neutron.Fly | neutron.py:82-93 | direction, flight length, speed, position and velocity of the flight; nothing else changes |
| NeutronModel.Neutron.Log | neutron.py:95-101 | one new entry in each position history and the energy history, and the clock advanced by the flight time |
| NeutronModel.Neutron.SetCrossSection | neutron.py:110-118 | one value per channel table, in table order, each the table read at the current energy |
| NeutronModel.Neutron.ChooseEvent | neutron.py:121-149 | the event count grows by one, the event selected at the current energy is recorded, and that event's effect is applied |
| NeutronModel.Neutron.CaptureEvent | neutron.py:152-153 | the new state is the captured one |
| NeutronModel.Neutron.FissionEvent | neutron.py:155-164 | the new state is absorbed and holds the offspring energies drawn |
| NeutronModel.Neutron.ScatterEventU | neutron.py:167-173 | the new state is the uranium-scattered one at the drawn angle |
| NeutronModel.Neutron.ScatterEventH | neutron.py:176-186 | the new state is the hydrogen-scattered one for the drawn ratio |
| NeutronProperties.EnergySpeedAtOne | neutron_testing.py:13-15 | a 1 eV neutron travels at 1.38e6 cm/s |
| NeutronProperties.EnergySpeedSquared | neutron.py:68-69 | the speed squared is 1.38e6² times the energy |
| NeutronProperties.EnergySpeedIncreasing | neutron.py:68-69 | a more energetic neutron is strictly faster |
| NeutronProperties.PlacedInside | neutron.py:55-61 | with unit draws the new position lies in [0, dimensionX) × [0, dimensionY), it is the only history point, and nothing else changes |
| NeutronProperties.SubThresholdAbsorbs | neutron.py:76-107 | at or below 1e-5 eV a step only absorbs: no move, no history entry, no event |
| NeutronProperties.StepRecordsOneEntry | neutron.py:95-124 | above the cut-off a step counts one event, records the event selected at the pre-step energy, and appends one entry to each position history and the pre-step energy to the energy history |
| NeutronProperties.EventKeepsFlight | neutron.py:121-186 | the event phase changes neither position, velocity, histories, clock, speed nor flight length |
| NeutronProperties.SteppedFlight | neutron.py:85-104 | position, velocity, speed and clock after a step come from the flight alone |
| NeutronProperties.FlightDisplacement | neutron.py:82-90 | the displacement is `sample` times the cosine and sine of the step direction, which is the angle left by a preceding uranium scatter and the fresh draw otherwise |
| NeutronProperties.FlightVelocity | neutron.py:86-93 | the velocity points along the step direction with the speed of the pre-step energy |
| NeutronProperties.FlightClock | neutron.py:101 | the clock advances by sample / speed and never runs backwards |
| NeutronProperties.ScatterAngleSteersNextFlight | neutron.py:82-83 | a uranium scatter records the angle it drew, the next flight takes that angle as its direction, and the angle survives the next step unless that step scatters off uranium again |
| NeutronProperties.DirectionUnusedAfterScatterU | neutron.py:82-83 | after a uranium scatter the next step's result does not depend on the fresh direction it draws |
| NeutronProperties.FreshDirectionOtherwise | neutron.py:82-83 | after any other event, or none, the step flies along its own fresh draw |
| NeutronProperties.SelectEventIntervals | neutron.py:126-149 | with non-negative values, a positive total T+H and a selector in [0, 1), each event is selected exactly on its interval, in both directions |
| NeutronProperties.FissionSpawnsOneOrTwo | neutron.py:155-164 | fission absorbs, leaves one or two offspring energies (one per multiplicity drawn), each the prompt sampler at its draw, and changes nothing else |
| NeutronProperties.CaptureOnlyAbsorbs | neutron.py:152-153 | capture absorbs the neutron and changes nothing else |
| NeutronProperties.ScatterRatioUBounds | neutron.py:171-172 | the uranium-scatter ratio lies in [α, 1] and equals 1 exactly when the cosine of the angle is 1 |
| NeutronProperties.ScatterUNeverGains | neutron.py:170-173 | a uranium scatter leaves the energy in [α·E, E], still positive |
| NeutronProperties.ScatterUFrame | neutron.py:167-173 | a uranium scatter records the drawn angle and changes only the angle and the energy |
| NeutronProperties.ScatterUKeepsEnergyIff | neutron.py:170-173 | the energy is unchanged exactly when the drawn angle has cosine 1; with the [α·E, E] bound every other angle lowers it, the decrease neutron_testing.py:25-28 expects |
| NeutronProperties.ScatterHSampler | neutron.py:176-186 | the up-scatter sampler is consulted exactly below 0.05 eV, and the energy is multiplied by the sampled ratio; nothing else changes |
| NeutronProperties.ScatterHEnergyChange | neutron.py:179-186 | below 0.05 eV a sampled ratio of at least 1 never lowers the energy, and a ratio above 1 strictly raises it; from 0.05 eV on a ratio in (0, 1) lowers it and keeps it positive. The strict rise that neutron_testing.py:30-33 expects therefore needs the up-scatter sampler to return a ratio above 1 |
| NeutronProperties.AbsorbedIffTerminal | neutron.py:73-158 | after a step the neutron is absorbed exactly when it already was, was at or below the cut-off, or the event selected at its pre-step energy is fission or capture |
| NeutronProperties.ConsistentPreserved | neutron.py:131-153 | a step keeps the neutron consistent: a recorded fission or capture always means absorbed |
| NeutronProperties.InitialConsistent | neutron.py:14-47 | a new neutron has no event, so it is consistent |
| ReactorModel.AdvancedAt | reactor.py:74-78 | the scan keeps the population's length, and neutron j after it is neutron j advanced once with its own draws (an absorbed neutron is unchanged) |
| ReactorModel.Reactor.constructor | reactor.py:17-36 | a new reactor has no neutrons, an empty energy history and a k_eff history holding 1 |
| ReactorModel.Reactor.GenerateList | reactor.py:38-51 | appends one thermal neutron per placement draw, placed in the rectangle, and one energy holder for them; nothing else changes |
| ReactorModel.Reactor.CalcCrit | reactor.py:116-118 | k_eff becomes gain / loss when both are non-zero and is kept otherwise |
| ReactorModel.Reactor.Spawn | reactor.py:91-95 | the offspring of a fissioned parent: one per recorded energy, at the parent's position, with thermal energy in a thermal reactor |
| ReactorModel.Reactor.Visit | reactor.py:76-98 | one neutron's turn: it is advanced once and contributes its gain, loss, holder entry and offspring |
| ReactorModel.Reactor.Sweep | reactor.py:74-98 | the scan advances every neutron once, in list order, and its counters equal the tally of all the turns |
| ReactorModel.Reactor.RunStep | reactor.py:62-111 | the new state is one sweep of the old one |
| ReactorModel.Reactor.StartUp | reactor.py:56-111 | the new state is the old one with the starting neutrons generated and then `stepCount` sweeps |
| ReactorModel.Reactor.RunSteps | reactor.py:62-111 | the new state is `n` sweeps of the old one |
| ReactorModel.Reactor.NeutronData | reactor.py:121-122 | returns the current neutron list |
| ReactorProperties.ScanCounts | reactor.py:76-98 | a scan's gain is the number of offspring energies its fissions recorded and the number of offspring it creates; its loss counts fissions and captures; its holder has one entry per neutron that was free when reached |
| ReactorProperties.HolderPairsSpeed | reactor.py:80 | every holder entry pairs an energy with the speed of that energy |
| ReactorProperties.OffspringPlaced | reactor.py:91-95 | a fissioned parent leaves one offspring per recorded energy, each at the parent's position, thermal in a thermal reactor and with the recorded energy otherwise, none of them stepped |
| ReactorProperties.ScanOffspringUnstepped | reactor.py:91-103 | every offspring a scan collects has not stepped, and in a thermal reactor has thermal energy |
| ReactorProperties.TurnOfConsistent | reactor.py:76-78 | a turn keeps a consistent neutron consistent and later in its walk (histories extended, events not fewer, absorbed neutrons unchanged), and a recorded fission left one or two energies |
| ReactorProperties.FiredFissionYield | neutron.py:155-164 | above the cut-off a step that records fission has drawn one or two offspring energies |
| ReactorProperties.TurnGainBounded | reactor.py:83-98 | one turn of a consistent neutron gains at most two neutrons per neutron lost |
| ReactorProperties.ScanGainBounded | reactor.py:83-98 | a scan of balanced turns gains at most twice what it loses |
| ReactorProperties.SweptShape | reactor.py:74-111 | a sweep keeps the neutrons in order, each advanced once, appends exactly `gain` offspring after them, appends one k_eff and one holder with one entry per free neutron, and changes nothing else |
| ReactorProperties.SweptNeutrons | reactor.py:74-103 | absorbed neutrons are passed over unchanged; each neutron of a consistent population moves later in its own walk and stays consistent; the appended offspring have not stepped |
| ReactorProperties.CalcCritBounded | reactor.py:116-118 | with at most two gained per lost, a k_eff in (0, 2] stays in (0, 2] |
| ReactorProperties.SweptSane | reactor.py:62-111 | a sweep keeps every neutron consistent and keeps the current and every recorded k_eff in (0, 2] |
| ReactorProperties.GeneratedShape | reactor.py:38-51 | `generateList` appends exactly one unstepped thermal neutron per placement and one holder with a (thermal energy, its speed) entry per neutron; nothing else changes |
| ReactorProperties.GeneratedInside | reactor.py:44-45 | with unit draws every starting neutron lies inside the reactor's rectangle |
| RunProperties.RunHistories | reactor.py:62-111 | after n sweeps both the k_eff history and the energy history have grown by exactly n entries and keep their old entries; counts, thermal flag and dimensions are unchanged |
| RunProperties.RunKeepsNeutrons | reactor.py:62-103 | over any number of sweeps every original neutron only moves later in its walk, and the population stays consistent |
| RunProperties.RunSane | reactor.py:62-111 | over any number of sweeps the population stays consistent and every k_eff stays in (0, 2] |
| RunProperties.StartedUpFromFresh | reactor.py:17-111 | after `startUp` on a new reactor the k_eff history holds 1 followed by one entry per sweep, the energy history holds the starting holder (neutronStart entries) followed by one per sweep, at least neutronStart neutrons remain, all consistent, and with a starting k_eff in (0, 2] every recorded k_eff is in (0, 2] |

## Left out

- Randomness: the global NumPy generator is not modelled. Every draw (direction, flight length, event selector, multiplicity, offspring draws, scatter angle, moderation draw, placement) is a parameter. `StepDraws.InRange` states the ranges the generator guarantees for every draw except the two angles (direction and scatter angle), which reach the model only through the abstract `cos` and `sin`. The flight length is an arbitrary non-negative value, not an exponential variate with mean 1/(T+H), so the distribution of the walk is not captured.
- Floating point: every quantity is an exact `real`. Rounding in the cumulative sums is not captured. Neither is the fact that a float cumulative sum may end a little off 1.
- Library functions: `np.cos`, `np.sin`, square roots, `np.exp`, `np.sinh` and `special.erf` are the abstract `Maths` functions, constrained only by `Maths.Lawful`.
- Interpolation: `interp1d` is not modelled. Each finished sampler reaches the neutron as a function in `Tables`, and out-of-range interpolation errors are not modelled. `Tables.Valid` assumes non-negative cross sections with a positive T + H. The source divides by T + H without checking it.
- File reading: the five CSV files are not read. `MakeCrossSections` takes their rows as input.
- Plotting, `runModeratorCDF`, the simulation script, the plotting script and the distribution tests are not part of this model. The same goes for `interPromptNeutronCDF`'s construction of the inverse function and for the module-level calls that build the tables on import.
- `logAvgMod` (creatingDistribution.py:159-160) is not part of this model: the simulation never uses it, and `moderation[2]` and `moderation[3]` are never consulted.
- The fission spectrum form is passed as a parameter instead of being read from a module-level string, so that both branches are reachable. The simulation's choice is `Watt`.
- Neutron names and parents: the `name` and `parent` bookkeeping of offspring is not modelled. Neither is the reactor's unused `newNeutronList`.
- ReactorModel.Reactor: the reactor holds each neutron as its `NeutronState` value. It does not hold references to `Neutron` objects. `GenerateList` and `Spawn` build real `Neutron` objects and store their states, and a sweep updates the list by value. Aliasing between list entries and in-place mutation of shared neutron objects are therefore not captured, and `NeutronData` returns states, not objects. The offspring are appended by sequence concatenation.
- Sweep draws: sweep k gives the neutron at list index i the draws `draws(k)(i)`. The order in which a single generator would hand them out is not modelled.
- Positions and velocities are `Vec` values. NumPy arrays are copied by the source at every assignment, so no sharing is observable.
- `newNeutronEnergies` starts empty in every new neutron. The source creates that attribute only inside `fissionEvent`, and it is read only after a fission.
- Operation split: `move` is split into `Fly` (flight) and `Log` (bookkeeping), and the body of `startUp`'s loop into `Visit`, `Sweep` and `RunStep`, with `RunSteps` for several sweeps. Each piece is proved against its own specification function.
