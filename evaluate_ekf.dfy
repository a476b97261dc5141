/** The extended-Kalman-filter evaluation script: its constants, the argument
    vector of one trial, `execute_trial` and `perform_experiment`. */
module EvaluateEkf {
  import opened PyBuiltins
  import opened TrialOutput
  import opened Sweep
  import opened Gateway

  /** `num_repeats`: trials per noise factor. */
  const NumRepeats: nat := 10

  /** The argument vector of one trial, as `execute_trial` passes it to the
      process: no particle-count flag. */
  function Argv(floatRepr: real -> string, dataFactor: PyNum, filterFactor: PyNum, seed: nat): (argv: seq<string>)
    ensures |argv| == 9
  {
    ["python", "localization.py", "ekf",
     "--data-factor", Str(dataFactor, floatRepr),
     "--filter-factor", Str(filterFactor, floatRepr),
     "--seed", IntToStr(seed)]
  }

  /** What the process reads back from the argument vector: the script, the
      filter `ekf`, both noise factors as str() renders them and the seed
      exactly; there is no particle count to read. */
  lemma ArgvReadBack(floatRepr: real -> string, dataFactor: PyNum, filterFactor: PyNum, seed: nat)
    ensures var argv := Argv(floatRepr, dataFactor, filterFactor, seed);
      && argv[..3] == ["python", "localization.py", "ekf"]
      && OptionValue(argv[3..], "--data-factor") == Some(Str(dataFactor, floatRepr))
      && OptionValue(argv[3..], "--filter-factor") == Some(Str(filterFactor, floatRepr))
      && OptionValue(argv[3..], "--seed") == Some(NatToStr(seed))
      && OptionValue(argv[3..], "--num-particles") == None
      && DigitsValue(NatToStr(seed)) == seed
  {
    var argv := Argv(floatRepr, dataFactor, filterFactor, seed);
    var options := argv[3..];
    assert options[2..] == argv[5..];
    assert options[2..][2..] == argv[7..];
    assert argv[7..][2..] == [];
    assert OptionValue(argv[7..], "--seed") == Some(NatToStr(seed));
    assert OptionValue(argv[5..], "--seed") == OptionValue(argv[7..], "--seed");
    assert OptionValue(argv[7..], "--num-particles") == OptionValue([], "--num-particles");
    assert OptionValue(argv[5..], "--num-particles") == OptionValue(argv[7..], "--num-particles");
    NatToStrRoundTrip(seed);
  }

  /** `execute_trial`: run the process on the trial's argument vector and
      parse what it prints; the pair is never half filled. */
  function ExecuteTrial(host: Host, dataFactor: PyNum, filterFactor: PyNum, seed: nat): (r: TrialResult)
    ensures BothOrNeither(r)
  {
    Parse(host.run(Argv(host.floatRepr, dataFactor, filterFactor, seed)), host.toFloat)
  }

  /** `execute_trial` as the sweep calls it. */
  function EkfTrial(host: Host): (trial: Trial)
    ensures Coherent(trial)
  {
    (c: Call) => ExecuteTrial(host, c.dataFactor, c.filterFactor, c.seed)
  }

  /** The two result lists of `perform_experiment` for one variant,
      index-aligned with the noise grid. */
  function Experiment(host: Host, isDataFixed: bool): (r: (seq<Option<real>>, seq<Option<real>>))
    ensures |r.0| == |NoiseFactors()| && |r.1| == |NoiseFactors()|
  {
    SweepResult(EkfTrial(host), isDataFixed, NoiseFactors(), NumRepeats)
  }

  /** The trials `perform_experiment` dispatches for one variant. */
  function Dispatched(isDataFixed: bool): (r: seq<seq<Call>>)
    ensures |r| == |NoiseFactors()|
  {
    DispatchPlan(isDataFixed, NoiseFactors(), NumRepeats)
  }

  /** `perform_experiment`: the sweep over the noise grid with `num_repeats`
      seeds per factor; also reports, as a ghost, the trials it dispatched. */
  method PerformExperiment(host: Host, isDataFixed: bool := true)
    returns (avgErrors: seq<Option<real>>, avgAnees: seq<Option<real>>, ghost dispatched: seq<seq<Call>>)
    ensures (avgErrors, avgAnees) == Experiment(host, isDataFixed)
    ensures dispatched == Dispatched(isDataFixed)
  {
    avgErrors, avgAnees, dispatched := RunSweep(EkfTrial(host), isDataFixed, NoiseFactors(), NumRepeats);
  }

  /** The argument vectors the sweep hands the process: for noise factor k and
      seed s, the data factor is "1" in the data-fixed variant and str() of the
      noise factor otherwise, the filter factor str() of the noise factor, and
      the seed s. */
  lemma DispatchedArgv(floatRepr: real -> string, isDataFixed: bool, k: nat, s: nat)
    requires k < |NoiseFactors()| && s < NumRepeats
    ensures var c := Dispatched(isDataFixed)[k][s];
      var argv := Argv(floatRepr, c.dataFactor, c.filterFactor, c.seed);
      && argv[4] == (if isDataFixed then "1" else Str(NoiseFactors()[k], floatRepr))
      && argv[6] == Str(NoiseFactors()[k], floatRepr)
      && argv[8] == NatToStr(s)
  {
    var noise := NoiseFactors()[k];
    assert Dispatched(isDataFixed)[k] == Calls(isDataFixed, noise, NumRepeats);
    assert Dispatched(isDataFixed)[k][s] == Call(DataFactor(isDataFixed, noise), noise, s);
    assert IntToStr(1) == "1";
  }

  /** Against a process whose every output parses to the pair (p, a), every
      entry of both result lists is exactly (p, a), in either variant. */
  lemma ExperimentOfConstantProcess(host: Host, isDataFixed: bool, p: real, a: real)
    requires forall argv :: Parse(host.run(argv), host.toFloat) == (Some(p), Some(a))
    ensures forall k :: 0 <= k < |NoiseFactors()| ==>
              Experiment(host, isDataFixed).0[k] == Some(p) && Experiment(host, isDataFixed).1[k] == Some(a)
  {
    var trial := EkfTrial(host);
    forall c ensures trial(c) == (Some(p), Some(a)) {
      var argv := Argv(host.floatRepr, c.dataFactor, c.filterFactor, c.seed);
      assert trial(c) == Parse(host.run(argv), host.toFloat);
    }
    SweepOfConstantTrial(trial, isDataFixed, NoiseFactors(), NumRepeats, p, a);
  }
}
