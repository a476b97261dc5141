/** The sweep orchestrator shared by `run_simulation` and `perform_experiment`:
    for every noise factor of the grid it dispatches one trial per seed
    0..repeats-1, keeps only the successful trials in two parallel lists and
    appends their means to the two result lists. The trial itself (process
    spawn plus output parsing) is a parameter; the grid and the repeat count
    are parameters too, fixed by each script. */
module Sweep {
  import opened PyBuiltins
  import opened TrialOutput
  import opened Aggregate

  /** One dispatched trial: data noise factor, filter noise factor and seed. */
  datatype Call = Call(dataFactor: PyNum, filterFactor: PyNum, seed: nat)

  /** A trial runner: what one call of `execute_trial` yields. */
  type Trial = Call -> TrialResult

  /** The runner never returns a half-filled tuple, as `execute_trial` guarantees. */
  ghost predicate Coherent(trial: Trial) {
    forall c :: BothOrNeither(trial(c))
  }

  /** `noise_factors`, the same list in both scripts: seven factors from 1/64
      to 64, each four times the one before; the first three are Python
      floats, the rest Python ints. */
  function NoiseFactors(): (g: seq<PyNum>)
    ensures |g| == 7
    ensures Value(g[0]) == 1.0 / 64.0 && Value(g[6]) == 64.0
    ensures forall k :: 0 <= k < 6 ==> Value(g[k + 1]) == 4.0 * Value(g[k])
    ensures forall k :: 0 <= k < 7 ==> Value(g[k]) > 0.0
  {
    [PyFloat(1.0 / 64.0), PyFloat(1.0 / 16.0), PyFloat(1.0 / 4.0), PyInt(1), PyInt(4), PyInt(16), PyInt(64)]
  }

  /** `data_factor = 1 if data_fixed else noise_factor`. */
  function DataFactor(dataFixed: bool, noise: PyNum): (d: PyNum)
    ensures dataFixed ==> d.PyInt? && Value(d) == 1.0
    ensures !dataFixed ==> d == noise
  {
    if dataFixed then PyInt(1) else noise
  }

  /** The trials dispatched for one noise factor: seeds 0, 1, ..., repeats - 1
      in increasing order, the data factor fixed at 1 or equal to the noise
      factor by variant, the filter factor always the noise factor. */
  function Calls(dataFixed: bool, noise: PyNum, repeats: nat): (r: seq<Call>)
    ensures |r| == repeats
    ensures forall s :: 0 <= s < repeats ==> r[s] == Call(DataFactor(dataFixed, noise), noise, s)
    ensures forall s :: 0 <= s < repeats ==> r[s].seed == s && r[s].filterFactor == noise
    ensures forall s :: 0 <= s < repeats ==>
              r[s].dataFactor == (if dataFixed then PyInt(1) else noise)
  {
    seq(repeats, s requires 0 <= s < repeats => Call(DataFactor(dataFixed, noise), noise, s))
  }

  /** Every trial the sweep dispatches, one batch per noise factor of the grid,
      in grid order. */
  function DispatchPlan(dataFixed: bool, grid: seq<PyNum>, repeats: nat): (r: seq<seq<Call>>)
    ensures |r| == |grid|
    ensures forall k :: 0 <= k < |grid| ==> r[k] == Calls(dataFixed, grid[k], repeats)
  {
    seq(|grid|, k requires 0 <= k < |grid| => Calls(dataFixed, grid[k], repeats))
  }

  /** The outcome of each call, in order. */
  function Outcomes(trial: Trial, calls: seq<Call>): (r: seq<TrialResult>)
    ensures |r| == |calls|
    ensures forall k :: 0 <= k < |calls| ==> r[k] == trial(calls[k])
  {
    seq(|calls|, k requires 0 <= k < |calls| => trial(calls[k]))
  }

  /** The two per-configuration lists after the inner loop: the position error
      and the ANEES of every trial whose position error is not None. */
  function Accumulate(os: seq<TrialResult>): (r: (seq<real>, seq<real>))
    requires forall k :: 0 <= k < |os| ==> BothOrNeither(os[k])
    ensures |r.0| == |r.1| <= |os|
  {
    if os == [] then ([], [])
    else
      var (errors, anees) := Accumulate(os[..|os| - 1]);
      var last := os[|os| - 1];
      assert BothOrNeither(last);
      if last.0.Some? then (errors + [last.0.value], anees + [last.1.value])
      else (errors, anees)
  }

  /** The positions of the successful outcomes, in increasing order. */
  function SuccessIndices(os: seq<TrialResult>): (r: seq<nat>)
    ensures forall k :: 0 <= k < |r| ==> r[k] < |os| && os[r[k]].0.Some?
    ensures forall k, l :: 0 <= k < l < |r| ==> r[k] < r[l]
    ensures forall t :: 0 <= t < |os| && os[t].0.Some? ==> t in r
  {
    if os == [] then []
    else
      var prefix := SuccessIndices(os[..|os| - 1]);
      if os[|os| - 1].0.Some? then prefix + [|os| - 1] else prefix
  }

  /** The accumulated lists are the successful outcomes and nothing else, in
      order, the two lists in lockstep: entry k of each comes from the k-th
      successful trial. */
  lemma {:induction false} AccumulateKeepsSuccesses(os: seq<TrialResult>)
    requires forall k :: 0 <= k < |os| ==> BothOrNeither(os[k])
    ensures |Accumulate(os).0| == |SuccessIndices(os)|
    ensures forall k :: 0 <= k < |SuccessIndices(os)| ==>
              Accumulate(os).0[k] == os[SuccessIndices(os)[k]].0.value
              && Accumulate(os).1[k] == os[SuccessIndices(os)[k]].1.value
  {
    if os != [] {
      var init := os[..|os| - 1];
      AccumulateKeepsSuccesses(init);
      assert forall k :: 0 <= k < |init| ==> init[k] == os[k];
    }
  }

  /** No successful value is kept exactly when every trial failed. */
  lemma AccumulateEmpty(os: seq<TrialResult>)
    requires forall k :: 0 <= k < |os| ==> BothOrNeither(os[k])
    ensures Accumulate(os).0 == [] <==> forall k :: 0 <= k < |os| ==> os[k].0.None?
  {
    AccumulateKeepsSuccesses(os);
    var idx := SuccessIndices(os);
    if idx != [] {
      assert os[idx[0]].0.Some?;
    }
  }

  /** One configuration's aggregated pair: the means of the accumulated lists.
      Both are None exactly when no trial of the configuration succeeded. */
  function ConfigAggregate(trial: Trial, dataFixed: bool, noise: PyNum, repeats: nat)
    : (r: (Option<real>, Option<real>))
    requires Coherent(trial)
    ensures r.0.None? <==> r.1.None?
    ensures r.0.None? <==> forall s :: 0 <= s < repeats ==>
              trial(Call(DataFactor(dataFixed, noise), noise, s)).0.None?
  {
    var calls := Calls(dataFixed, noise, repeats);
    var os := Outcomes(trial, calls);
    AccumulateEmpty(os);
    var (errors, anees) := Accumulate(os);
    (Mean(errors), Mean(anees))
  }

  /** The two result lists of a whole sweep, index-aligned with the grid:
      entry k of each belongs to grid[k]. */
  function SweepResult(trial: Trial, dataFixed: bool, grid: seq<PyNum>, repeats: nat)
    : (r: (seq<Option<real>>, seq<Option<real>>))
    requires Coherent(trial)
    ensures |r.0| == |grid| && |r.1| == |grid|
    ensures forall k :: 0 <= k < |grid| ==>
              (r.0[k], r.1[k]) == ConfigAggregate(trial, dataFixed, grid[k], repeats)
  {
    if grid == [] then ([], [])
    else
      var (errors, anees) := SweepResult(trial, dataFixed, grid[..|grid| - 1], repeats);
      var c := ConfigAggregate(trial, dataFixed, grid[|grid| - 1], repeats);
      (errors + [c.0], anees + [c.1])
  }

  /** One more trial appends its outcome. */
  lemma OutcomesStep(trial: Trial, calls: seq<Call>, c: Call)
    ensures Outcomes(trial, calls + [c]) == Outcomes(trial, calls) + [trial(c)]
  {
  }

  /** One more seed appends its call. */
  lemma CallsStep(dataFixed: bool, noise: PyNum, seed: nat)
    ensures Calls(dataFixed, noise, seed + 1) == Calls(dataFixed, noise, seed) + [Call(DataFactor(dataFixed, noise), noise, seed)]
  {
  }

  /** One more outcome extends the two lists by its values, or leaves them. */
  lemma AccumulateStep(os: seq<TrialResult>, o: TrialResult)
    requires forall k :: 0 <= k < |os| ==> BothOrNeither(os[k])
    requires BothOrNeither(o)
    ensures forall k :: 0 <= k < |os + [o]| ==> BothOrNeither((os + [o])[k])
    ensures Accumulate(os + [o]) == if o.0.Some? then (Accumulate(os).0 + [o.0.value], Accumulate(os).1 + [o.1.value])
                                    else Accumulate(os)
  {
    assert (os + [o])[..|os|] == os;
  }

  /** One more noise factor extends both result lists by its pair. */
  lemma SweepResultStep(trial: Trial, dataFixed: bool, grid: seq<PyNum>, i: nat, repeats: nat)
    requires Coherent(trial)
    requires i < |grid|
    ensures SweepResult(trial, dataFixed, grid[..i + 1], repeats)
            == (SweepResult(trial, dataFixed, grid[..i], repeats).0 + [ConfigAggregate(trial, dataFixed, grid[i], repeats).0],
                SweepResult(trial, dataFixed, grid[..i], repeats).1 + [ConfigAggregate(trial, dataFixed, grid[i], repeats).1])
  {
    assert grid[..i + 1][..i] == grid[..i];
  }

  /** One more noise factor appends its batch of calls. */
  lemma DispatchPlanStep(dataFixed: bool, grid: seq<PyNum>, i: nat, repeats: nat)
    requires i < |grid|
    ensures DispatchPlan(dataFixed, grid[..i + 1], repeats)
            == DispatchPlan(dataFixed, grid[..i], repeats) + [Calls(dataFixed, grid[i], repeats)]
  {
  }

  /** The inner loop of `run_simulation` / `perform_experiment` for one noise
      factor: dispatch the seeds in order and append the values of every
      successful trial to the two lists. Reports, as a ghost, what it dispatched. */
  method RunConfiguration(trial: Trial, dataFixed: bool, noise: PyNum, repeats: nat)
    returns (errors: seq<real>, aneesList: seq<real>, ghost calls: seq<Call>)
    requires Coherent(trial)
    ensures (errors, aneesList) == Accumulate(Outcomes(trial, Calls(dataFixed, noise, repeats)))
    ensures calls == Calls(dataFixed, noise, repeats)
  {
    errors, aneesList, calls := [], [], [];
    for seed := 0 to repeats
      invariant calls == Calls(dataFixed, noise, seed)
      invariant (errors, aneesList) == Accumulate(Outcomes(trial, calls))
    {
      var dataFactor := if dataFixed then PyInt(1) else noise;
      var filterFactor := noise;
      var call := Call(dataFactor, filterFactor, seed);
      var (posError, anees) := trial(call);
      assert BothOrNeither(trial(call));
      OutcomesStep(trial, calls, call);
      CallsStep(dataFixed, noise, seed);
      AccumulateStep(Outcomes(trial, calls), trial(call));
      calls := calls + [call];
      if posError.Some? {
        errors := errors + [posError.value];
        aneesList := aneesList + [anees.value];
      }
    }
  }

  /** The outer loop of `run_simulation` / `perform_experiment`: one aggregated
      pair per noise factor, appended in grid order. Besides the two result
      lists it reports, as a ghost, the trials it dispatched. */
  method RunSweep(trial: Trial, dataFixed: bool, grid: seq<PyNum>, repeats: nat)
    returns (positionErrors: seq<Option<real>>, aneesValues: seq<Option<real>>,
             ghost dispatched: seq<seq<Call>>)
    requires Coherent(trial)
    ensures (positionErrors, aneesValues) == SweepResult(trial, dataFixed, grid, repeats)
    ensures dispatched == DispatchPlan(dataFixed, grid, repeats)
  {
    positionErrors, aneesValues, dispatched := [], [], [];
    for i := 0 to |grid|
      invariant (positionErrors, aneesValues) == SweepResult(trial, dataFixed, grid[..i], repeats)
      invariant dispatched == DispatchPlan(dataFixed, grid[..i], repeats)
    {
      var errors, aneesList, calls := RunConfiguration(trial, dataFixed, grid[i], repeats);
      SweepResultStep(trial, dataFixed, grid, i, repeats);
      DispatchPlanStep(dataFixed, grid, i, repeats);
      positionErrors := positionErrors + [Mean(errors)];
      aneesValues := aneesValues + [Mean(aneesList)];
      dispatched := dispatched + [calls];
    }
    assert grid[..|grid|] == grid;
  }

  /** A runner that returns the same pair (p, a) for every call yields (p, a)
      for the configuration. */
  lemma ConfigOfConstantTrial(trial: Trial, dataFixed: bool, noise: PyNum, repeats: nat, p: real, a: real)
    requires Coherent(trial)
    requires forall c :: trial(c) == (Some(p), Some(a))
    requires repeats > 0
    ensures ConfigAggregate(trial, dataFixed, noise, repeats) == (Some(p), Some(a))
  {
    var os := Outcomes(trial, Calls(dataFixed, noise, repeats));
    AccumulateKeepsSuccesses(os);
    var idx := SuccessIndices(os);
    assert os[0] == (Some(p), Some(a));
    assert 0 in idx;
    var (errors, anees) := Accumulate(os);
    assert forall k :: 0 <= k < |idx| ==> os[idx[k]] == (Some(p), Some(a));
    MeanOfConstant(errors, p);
    MeanOfConstant(anees, a);
  }

  /** A runner that returns the same pair (p, a) for every call yields (p, a)
      in every entry of the sweep, whatever the seed or the variant. */
  lemma SweepOfConstantTrial(trial: Trial, dataFixed: bool, grid: seq<PyNum>, repeats: nat, p: real, a: real)
    requires Coherent(trial)
    requires forall c :: trial(c) == (Some(p), Some(a))
    requires repeats > 0
    ensures forall k :: 0 <= k < |grid| ==>
              SweepResult(trial, dataFixed, grid, repeats).0[k] == Some(p)
              && SweepResult(trial, dataFixed, grid, repeats).1[k] == Some(a)
  {
    forall k | 0 <= k < |grid|
      ensures ConfigAggregate(trial, dataFixed, grid[k], repeats) == (Some(p), Some(a))
    {
      ConfigOfConstantTrial(trial, dataFixed, grid[k], repeats, p, a);
    }
  }

  /** When every successful position error of the runner lies in [lo, hi], so
      does the configuration's mean position error, if defined. */
  lemma ConfigWithinBounds(trial: Trial, dataFixed: bool, noise: PyNum, repeats: nat, lo: real, hi: real)
    requires Coherent(trial)
    requires forall c :: trial(c).0.Some? ==> lo <= trial(c).0.value <= hi
    ensures ConfigAggregate(trial, dataFixed, noise, repeats).0.Some? ==>
              lo <= ConfigAggregate(trial, dataFixed, noise, repeats).0.value <= hi
  {
    var os := Outcomes(trial, Calls(dataFixed, noise, repeats));
    AccumulateKeepsSuccesses(os);
    var idx := SuccessIndices(os);
    var errors := Accumulate(os).0;
    if errors != [] {
      assert forall k :: 0 <= k < |idx| ==> os[idx[k]].0.Some? && lo <= os[idx[k]].0.value <= hi;
      MeanBounds(errors, lo, hi);
    }
  }

  /** The same bound for every defined entry of the sweep's position-error list. */
  lemma SweepWithinBounds(trial: Trial, dataFixed: bool, grid: seq<PyNum>, repeats: nat, lo: real, hi: real)
    requires Coherent(trial)
    requires forall c :: trial(c).0.Some? ==> lo <= trial(c).0.value <= hi
    ensures forall k :: 0 <= k < |grid| && SweepResult(trial, dataFixed, grid, repeats).0[k].Some? ==>
              lo <= SweepResult(trial, dataFixed, grid, repeats).0[k].value <= hi
  {
    forall k | 0 <= k < |grid|
      ensures ConfigAggregate(trial, dataFixed, grid[k], repeats).0.Some? ==>
                lo <= ConfigAggregate(trial, dataFixed, grid[k], repeats).0.value <= hi
    {
      ConfigWithinBounds(trial, dataFixed, grid[k], repeats, lo, hi);
    }
  }

  /** A failed trial between two successes is dropped from both lists, not
      kept as a zero: only the two successes' values remain, in order. */
  lemma FailureExcluded(e1: real, a1: real, e2: real, a2: real)
    ensures Accumulate([(Some(e1), Some(a1)), (None, None), (Some(e2), Some(a2))]) == ([e1, e2], [a1, a2])
  {
    var o1: TrialResult, o2: TrialResult, o3: TrialResult := (Some(e1), Some(a1)), (None, None), (Some(e2), Some(a2));
    var none: seq<TrialResult> := [];
    assert Accumulate(none) == ([], []);
    AccumulateStep(none, o1);
    assert none + [o1] == [o1];
    assert [] + [e1] == [e1] && [] + [a1] == [a1];
    assert Accumulate([o1]) == ([e1], [a1]);
    AccumulateStep([o1], o2);
    assert [o1] + [o2] == [o1, o2];
    assert Accumulate([o1, o2]) == ([e1], [a1]);
    AccumulateStep([o1, o2], o3);
    assert [o1, o2] + [o3] == [o1, o2, o3];
    assert [e1] + [e2] == [e1, e2] && [a1] + [a2] == [a1, a2];
  }

  /** The worked case: successes 1.0 and 3.0 around one failure average to 2.0
      (and their ANEES 0.5 and 1.5 to 1.0). */
  lemma FailureExcludedExample()
    ensures Accumulate([(Some(1.0), Some(0.5)), (None, None), (Some(3.0), Some(1.5))])
            == ([1.0, 3.0], [0.5, 1.5])
    ensures Mean([1.0, 3.0]) == Some(2.0) && Mean([0.5, 1.5]) == Some(1.0)
  {
    FailureExcluded(1.0, 0.5, 3.0, 1.5);
    MeanExamples();
    assert [0.5, 1.5][..1] == [0.5];
  }
}
