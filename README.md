# Evaluation harness of the localization filters

Two scripts evaluate a localization program. `evaluate_pf.py` covers the particle filter. `evaluate_ekf.py` covers the extended Kalman filter. Both scripts run the same sweep:

- For each of seven noise scaling factors (1/64 to 64) and each seed 0..9, they run the program once.
- They read the mean position error and the ANEES from what the program prints.
- They drop the trials whose output could not be read.
- They average the remaining values per noise factor.

The particle-filter script also repeats the data-fixed sweep for 20, 50 and 500 particles. It stores each run in a dictionary keyed by the particle count.

This project models that harness in Dafny and proves what it computes.

- `PyBuiltins` holds the Python built-ins the scripts use:
  - `None`, and Python's int and float kinds;
  - `str()` of an int;
  - `str.isspace` and `str.strip()`;
  - `s.split(sep)[0]` and `s.split(sep)[1]`.
- `TrialOutput` is the output parser shared by both scripts: the two markers, the field extraction and the both-or-neither result.
- `Aggregate` is the mean, in exact reals. It is `None` on an empty list, where `np.mean` gives NaN.
- `Sweep` is the nested loop shared by `run_simulation` and `perform_experiment`.
  - It is an imperative method that appends to the lists, proved against a specification function.
  - The trial runner, the grid and the repeat count are parameters.
- `Gateway` holds what the scripts take from outside:
  - the localization process, as a deterministic function from argument vector to standard output;
  - Python's `float()`, as a partial function;
  - the `str()` of a Python float;
  - a reading of `--flag value` vectors, used to state which value each flag carries in the vector the scripts build; it is not the process's own option parser.
- `EvaluatePf` and `EvaluateEkf` hold what is specific to each script:
  - the constants;
  - the argument vector;
  - `execute_trial`;
  - the sweep at the script's own grid and repeat count;
  - in `EvaluatePf`, the particle-count loop that fills two maps.

Some properties hold by construction, so they need no lemma. Every function here is deterministic, so parsing one output twice gives the same result. The same arguments also always give the same sweep.

## Model

| member | source | states |
|---|---|---|
| PyBuiltins.NatToStr | evaluate_pf.py:18 | str() of a non-negative int is a non-empty string of decimal digits, with a leading '0' only for zero itself (canonical decimal) |
| PyBuiltins.IntToStrRoundTrip | evaluate_pf.py:18-19 | str() of any int is an optional '-' followed by digits, carries the '-' exactly when the int is negative, and reads back as the same int |
| PyBuiltins.Str | evaluate_pf.py:16-17 | str() of a Python int reads back as that int; str() of a Python float is the interpreter's float repr |
| PyBuiltins.NatToStrRoundTrip | evaluate_pf.py:18-19 | the decimal text of a seed or particle count reads back as the same number |
| PyBuiltins.IsSpace | evaluate_pf.py:24-25 | the whitespace strip() removes (Python's isspace set) never includes a digit, a sign, a decimal point or an exponent letter |
| PyBuiltins.LeadingSpaces | evaluate_pf.py:24 | the leading whitespace run of a text is all whitespace and is followed by a non-space or the end |
| PyBuiltins.TrailingSpaces | evaluate_pf.py:24 | the trailing whitespace run of a text is all whitespace and is preceded by a non-space or the start |
| PyBuiltins.Strip | evaluate_pf.py:24-25 | strip() leaves a text with no whitespace at either end, and the original is that text between a whitespace prefix and a whitespace suffix |
| PyBuiltins.StripUnique | evaluate_pf.py:24-25 | any split of a text into whitespace, a trimmed core and whitespace has strip() equal to that core |
| PyBuiltins.StripIdempotent | evaluate_pf.py:24-25 | stripping twice strips nothing more |
| PyBuiltins.FindFrom | evaluate_pf.py:24-25 | the result is the first occurrence of the separator at or after the start index, or None when there is none |
| PyBuiltins.SplitFirst | evaluate_pf.py:24 | split(sep)[0] is the prefix that ends at the first occurrence of sep, or the whole text; sep occurs nowhere inside it |
| PyBuiltins.SplitSecond | evaluate_pf.py:24-25 | split(sep)[1] raises (None) exactly when sep occurs nowhere in the text |
| PyBuiltins.SplitSecondAt | evaluate_pf.py:25 | split(sep)[1] is exactly the text from the end of the first occurrence up to the next occurrence or the end of the text |
| TrialOutput.PositionField | evaluate_pf.py:24 | the position-error text is missing exactly when the marker "Mean position error:" is absent, and otherwise it is trimmed |
| TrialOutput.AneesField | evaluate_pf.py:25 | the ANEES text is missing exactly when the marker "ANEES:" is absent, and otherwise it is trimmed |
| TrialOutput.Parse | evaluate_pf.py:23-30 | the result is both numbers or neither; on success they are float() of the two fields; a missing marker or an unconvertible field gives (None, None) |
| TrialOutput.FirstLineAt | evaluate_pf.py:24 | split("\n")[0] is the text up to the first newline |
| TrialOutput.PositionFieldAt | evaluate_pf.py:24 | the position field is the text after the first marker, cut at the first newline (or the next marker, or the end) and stripped |
| TrialOutput.AneesFieldAt | evaluate_pf.py:25 | the ANEES field is the text after the first "ANEES:" up to the next "ANEES:" or the end of the output, stripped, so any text after the number stays in the field |
| TrialOutput.ParseOfFields | evaluate_pf.py:23-30 | once both fields are found, the trial is float() of both when both convert, and (None, None) otherwise |
| TrialOutput.ParseAt | evaluate_pf.py:23-30 | the whole trial read off the marker positions: float() of the stripped position line and the stripped ANEES text when both convert, (None, None) otherwise |
| Aggregate.SumFront | evaluate_pf.py:47-48 | the sum inside the mean, accumulated from the back, equals the sum taken from the front, so summation order does not matter |
| Aggregate.Mean | evaluate_pf.py:47-48 | the mean is undefined exactly for an empty list; otherwise mean times count equals the sum |
| Aggregate.SumBounds | evaluate_pf.py:47-48 | element bounds bound the sum by count times the bound |
| Aggregate.MeanBounds | evaluate_pf.py:47-48 | the mean lies between the least and the greatest value averaged |
| Aggregate.MeanOfConstant | evaluate_pf.py:47-48 | averaging copies of one value gives that value |
| Aggregate.MeanExamples | evaluate_pf.py:47-48 | worked means: [1, 2, 3] gives 2, [1, 3] gives 2, the empty list gives None |
| Sweep.NoiseFactors | evaluate_pf.py:9 | seven noise factors from 1/64 to 64, each 4 times the one before, all positive; the same list is at evaluate_ekf.py:6 |
| Sweep.DataFactor | evaluate_pf.py:41 | the data factor is the Python int 1 in the data-fixed variant and the noise factor otherwise (the same rule is at evaluate_ekf.py:39) |
| Sweep.Calls | evaluate_pf.py:40-43 | one noise factor dispatches exactly `repeats` trials with seeds 0, 1, ... in order; the data factor is int 1 when data is fixed and the noise factor otherwise; the filter factor is always the noise factor |
| Sweep.DispatchPlan | evaluate_pf.py:36-43 | the whole sweep dispatches one batch per grid entry, in grid order, each batch the calls of that factor |
| Sweep.Outcomes | evaluate_pf.py:43 | each dispatched call yields the trial's result for exactly that call, in order |
| Sweep.Accumulate | evaluate_pf.py:37-46 | the two per-configuration lists always have equal length, never more than the number of trials |
| Sweep.SuccessIndices | evaluate_pf.py:44 | the positions of the successful trials in increasing order, all of them and only them |
| Sweep.AccumulateKeepsSuccesses | evaluate_pf.py:44-46 | entry k of both lists comes from the k-th successful trial, so failures are excluded and the lists grow in lockstep |
| Sweep.AccumulateEmpty | evaluate_pf.py:44-47 | nothing is kept exactly when every trial failed |
| Sweep.ConfigAggregate | evaluate_pf.py:37-48 | one factor's pair of means is both defined or both undefined, and undefined exactly when every seed's trial failed |
| Sweep.SweepResult | evaluate_pf.py:33-49 | both result lists have the grid's length, and entry k belongs to grid[k] |
| Sweep.OutcomesStep | evaluate_pf.py:43 | one more call appends its outcome |
| Sweep.CallsStep | evaluate_pf.py:40-42 | one more seed appends its call |
| Sweep.AccumulateStep | evaluate_pf.py:44-46 | a success appends its two values to the two lists; a failure leaves both unchanged |
| Sweep.SweepResultStep | evaluate_pf.py:47-48 | one more noise factor appends its pair of means |
| Sweep.DispatchPlanStep | evaluate_pf.py:36-42 | one more noise factor appends its batch of calls |
| Sweep.RunConfiguration | evaluate_pf.py:37-46 | the inner loop dispatches exactly the calls of its factor, and leaves the two lists equal to the accumulation of their outcomes |
| Sweep.RunSweep | evaluate_pf.py:33-49 | the outer loop returns the specified result lists and dispatches exactly the sweep's plan |
| Sweep.ConfigOfConstantTrial | evaluate_pf.py:40-48 | if every trial returns the same pair, the configuration's means are that pair |
| Sweep.SweepOfConstantTrial | evaluate_pf.py:36-49 | if every trial returns the same pair, every entry of both result lists is that pair |
| Sweep.ConfigWithinBounds | evaluate_pf.py:44-47 | if every successful position error lies in [lo, hi], so does the configuration's mean |
| Sweep.SweepWithinBounds | evaluate_pf.py:36-49 | the same bound holds for every defined entry of the sweep's position-error list |
| Sweep.FailureExcluded | evaluate_pf.py:44-46 | a failure between two successes is dropped, not counted as zero |
| Sweep.FailureExcludedExample | evaluate_pf.py:44-48 | successes 1 and 3 around a failure average to 2, and their ANEES 0.5 and 1.5 to 1 |
| Gateway.OptionValue | evaluate_pf.py:15-19 | the value read for a flag sits right after an even position holding the flag; None exactly when no even position holds the flag |
| EvaluatePf.Argv | evaluate_pf.py:14-19 | the argument vector always has 11 entries |
| EvaluatePf.ArgvReadBack | evaluate_pf.py:13-19 | the vector starts with python, localization.py and pf; each flag maps to its value; the seed and particle count read back exactly |
| EvaluatePf.ExecuteTrial | evaluate_pf.py:13-30 | a trial never returns a half-filled pair |
| EvaluatePf.PfTrial | evaluate_pf.py:43 | the runner at a fixed particle count never returns a half-filled pair |
| EvaluatePf.Simulation | evaluate_pf.py:32-49 | both result lists have one entry per noise factor |
| EvaluatePf.Dispatched | evaluate_pf.py:36-43 | the dispatch plan has one batch per noise factor |
| EvaluatePf.RunSimulation | evaluate_pf.py:32-49 | run_simulation returns the specified sweep at its variant and particle count, and dispatches exactly the plan of its variant |
| EvaluatePf.DispatchedArgv | evaluate_pf.py:16-43 | the dispatched vector for factor k and seed s carries "1" or str(factor) as data factor by variant, str(factor) as filter factor, seed s, and the particle count |
| EvaluatePf.FilledStep | evaluate_pf.py:60-64 | storing the next count's pair keeps the maps filled for one more option |
| EvaluatePf.FilledKeys | evaluate_pf.py:58-64 | maps filled for all options have exactly the keys 20, 50 and 500 |
| EvaluatePf.StoreSimulation | evaluate_pf.py:62-64 | one pass stores the data-fixed sweep at this count under the count, changing that key only |
| EvaluatePf.ParticleSweep | evaluate_pf.py:58-64 | both maps have exactly the keys 20, 50 and 500, and each value is the data-fixed sweep at that particle count |
| EvaluatePf.SimulationOfConstantProcess | evaluate_pf.py:32-49 | if every output parses to the same pair, every entry of both result lists is that pair, for any variant and particle count |
| EvaluateEkf.Argv | evaluate_ekf.py:14-17 | the argument vector always has 9 entries |
| EvaluateEkf.ArgvReadBack | evaluate_ekf.py:13-18 | the vector starts with python, localization.py and ekf; each flag maps to its value, there is no particle-count flag, and the seed reads back exactly |
| EvaluateEkf.ExecuteTrial | evaluate_ekf.py:12-28 | a trial never returns a half-filled pair |
| EvaluateEkf.EkfTrial | evaluate_ekf.py:41 | the runner never returns a half-filled pair |
| EvaluateEkf.Experiment | evaluate_ekf.py:30-48 | both result lists have one entry per noise factor |
| EvaluateEkf.Dispatched | evaluate_ekf.py:34-41 | the dispatch plan has one batch per noise factor |
| EvaluateEkf.PerformExperiment | evaluate_ekf.py:30-48 | perform_experiment returns the specified sweep at its variant, and dispatches exactly the plan of its variant |
| EvaluateEkf.DispatchedArgv | evaluate_ekf.py:15-41 | the dispatched vector for factor k and seed s carries "1" or str(factor) as data factor by variant, str(factor) as filter factor, and seed s |
| EvaluateEkf.ExperimentOfConstantProcess | evaluate_ekf.py:30-48 | if every output parses to the same pair, every entry of both result lists is that pair, in either variant |

The `Sweep` members cite `evaluate_pf.py`. `perform_experiment` in `evaluate_ekf.py:30-48` has the same loop, line for line. Only the names differ: `run_simulation` there is `perform_experiment`, `num_trials` is `num_repeats`, and `errors` and `anees_list` are `trial_errors` and `trial_anees`.

The `TrialOutput` members likewise cite `evaluate_pf.py:23-30`. The parser in `evaluate_ekf.py:21-28` is the same.

## Left out

- The process spawn (`subprocess.run` with captured output) is left out because it is external I/O. The model treats it as the given deterministic function `Host.run` from argument vector to standard output.
- `Host.run` is total, so the model always gets an output. In the source (evaluate_pf.py:14-21, evaluate_ekf.py:13-19) the call sits outside the `try`. A spawn failure (an OSError) aborts the whole sweep. The call also has no timeout, so a process that hangs stalls the sweep for ever. The model covers neither case.
- The localization process's own option parser is not modelled. `Gateway.OptionValue` is only a reading of the vector that states which value each flag carries, taking the first occurrence. The process itself might take another occurrence, for example the last, as argparse's store action does. This makes no difference for the vectors built here, since each flag appears once.
- `float()` is left out because it is floating-point parsing. The model treats it as the given partial function `Host.toFloat`. Its exact accepted grammar, and the NaN and infinity it can return, are not modelled.
- TrialOutput.AneesFieldAt: the model shows that trailing text after the ANEES number stays in the field. Whether that makes the trial fail depends on `float()`, which is abstract here.
- `str()` of a Python float (the shortest round-trip repr) is left out because it is floating-point formatting. The model treats it as the given function `Host.floatRepr`. `str()` of an int is exact.
- IEEE-754 arithmetic in `np.mean` is left out because it is floating-point numerics. The model computes means in exact reals.
- NaN from `np.mean` of an empty list is not copied. The model gives `None` instead.
- `print` diagnostics, `os.makedirs('results')`, and all matplotlib plotting and saving are left out because they are output only. They are projections of the computed lists.
- The top-level straight-line calls of the two variants are not modelled as a program. They are `run_simulation(data_fixed=False)` and `run_simulation(data_fixed=True)`, plus the EKF counterparts. Each is one call of `RunSimulation` or `PerformExperiment` with that argument.
- Python's dictionaries are modelled as Dafny maps, which have no insertion order. The loop inserts 20, 50 and 500 in that order.
- Exceptions other than a missing marker or an unconvertible field fall into the same `except` branch in the source. Here every failure is the `None` result.
