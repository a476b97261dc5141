/** The particle-filter evaluation script: its constants, the argument vector
    of one trial, `execute_trial`, `run_simulation` and the particle-count
    loop that keys one full sweep by each particle count. */
module EvaluatePf {
  import opened PyBuiltins
  import opened TrialOutput
  import opened Sweep
  import opened Gateway

  /** `num_trials`: trials per noise factor. */
  const NumTrials: nat := 10

  /** `particle_options`: the particle counts of the particle-count sweep. */
  const ParticleOptions: seq<nat> := [20, 50, 500]

  /** The default of `num_particles`. */
  const DefaultParticles: nat := 100

  /** The argument vector of one trial, as `execute_trial` passes it to the
      process. */
  function Argv(floatRepr: real -> string, dataFactor: PyNum, filterFactor: PyNum, seed: nat,
                numParticles: nat := DefaultParticles): (argv: seq<string>)
    ensures |argv| == 11
  {
    ["python", "localization.py", "pf",
     "--data-factor", Str(dataFactor, floatRepr),
     "--filter-factor", Str(filterFactor, floatRepr),
     "--seed", IntToStr(seed),
     "--num-particles", IntToStr(numParticles)]
  }

  /** What the process reads back from the argument vector: the script, the
      filter `pf`, both noise factors as str() renders them, and the seed and
      the particle count exactly. */
  lemma ArgvReadBack(floatRepr: real -> string, dataFactor: PyNum, filterFactor: PyNum, seed: nat, numParticles: nat)
    ensures var argv := Argv(floatRepr, dataFactor, filterFactor, seed, numParticles);
      && argv[..3] == ["python", "localization.py", "pf"]
      && OptionValue(argv[3..], "--data-factor") == Some(Str(dataFactor, floatRepr))
      && OptionValue(argv[3..], "--filter-factor") == Some(Str(filterFactor, floatRepr))
      && OptionValue(argv[3..], "--seed") == Some(NatToStr(seed))
      && OptionValue(argv[3..], "--num-particles") == Some(NatToStr(numParticles))
      && DigitsValue(NatToStr(seed)) == seed
      && DigitsValue(NatToStr(numParticles)) == numParticles
  {
    var d, f, sd, np := Str(dataFactor, floatRepr), Str(filterFactor, floatRepr), NatToStr(seed), NatToStr(numParticles);
    var argv := Argv(floatRepr, dataFactor, filterFactor, seed, numParticles);
    assert argv[3..] == ["--data-factor", d] + argv[5..];
    assert argv[5..] == ["--filter-factor", f] + argv[7..];
    assert argv[7..] == ["--seed", sd] + argv[9..];
    assert argv[9..] == ["--num-particles", np];
    assert OptionValue(argv[9..], "--num-particles") == Some(np);
    assert OptionValue(argv[7..], "--num-particles") == Some(np);
    assert OptionValue(argv[5..], "--num-particles") == Some(np);
    assert OptionValue(argv[7..], "--seed") == Some(sd);
    assert OptionValue(argv[5..], "--seed") == Some(sd);
    NatToStrRoundTrip(seed);
    NatToStrRoundTrip(numParticles);
  }

  /** `execute_trial`: run the process on the trial's argument vector and
      parse what it prints; the pair is never half filled. */
  function ExecuteTrial(host: Host, dataFactor: PyNum, filterFactor: PyNum, seed: nat,
                        numParticles: nat := DefaultParticles): (r: TrialResult)
    ensures BothOrNeither(r)
  {
    Parse(host.run(Argv(host.floatRepr, dataFactor, filterFactor, seed, numParticles)), host.toFloat)
  }

  /** `execute_trial` at a fixed particle count, as the sweep calls it. */
  function PfTrial(host: Host, numParticles: nat): (trial: Trial)
    ensures Coherent(trial)
  {
    (c: Call) => ExecuteTrial(host, c.dataFactor, c.filterFactor, c.seed, numParticles)
  }

  /** The two result lists of `run_simulation` for one variant and particle
      count, index-aligned with the noise grid. */
  function Simulation(host: Host, dataFixed: bool, numParticles: nat): (r: (seq<Option<real>>, seq<Option<real>>))
    ensures |r.0| == |NoiseFactors()| && |r.1| == |NoiseFactors()|
  {
    SweepResult(PfTrial(host, numParticles), dataFixed, NoiseFactors(), NumTrials)
  }

  /** The trials `run_simulation` dispatches for one variant. */
  function Dispatched(dataFixed: bool): (r: seq<seq<Call>>)
    ensures |r| == |NoiseFactors()|
  {
    DispatchPlan(dataFixed, NoiseFactors(), NumTrials)
  }

  /** `run_simulation`: the sweep over the noise grid with `num_trials` seeds
      per factor; also reports, as a ghost, the trials it dispatched. */
  method RunSimulation(host: Host, dataFixed: bool := true, numParticles: nat := DefaultParticles)
    returns (positionErrors: seq<Option<real>>, aneesValues: seq<Option<real>>,
             ghost dispatched: seq<seq<Call>>)
    ensures (positionErrors, aneesValues) == Simulation(host, dataFixed, numParticles)
    ensures dispatched == Dispatched(dataFixed)
  {
    positionErrors, aneesValues, dispatched :=
      RunSweep(PfTrial(host, numParticles), dataFixed, NoiseFactors(), NumTrials);
  }

  /** The argument vectors the sweep hands the process: for noise factor k and
      seed s, the data factor is "1" in the data-fixed variant and str() of the
      noise factor otherwise, the filter factor str() of the noise factor, the
      seed s, and the particle count the one asked for. */
  lemma DispatchedArgv(floatRepr: real -> string, dataFixed: bool, numParticles: nat, k: nat, s: nat)
    requires k < |NoiseFactors()| && s < NumTrials
    ensures var c := Dispatched(dataFixed)[k][s];
      var argv := Argv(floatRepr, c.dataFactor, c.filterFactor, c.seed, numParticles);
      && argv[4] == (if dataFixed then "1" else Str(NoiseFactors()[k], floatRepr))
      && argv[6] == Str(NoiseFactors()[k], floatRepr)
      && argv[8] == NatToStr(s)
      && argv[10] == NatToStr(numParticles)
  {
    var noise := NoiseFactors()[k];
    assert Dispatched(dataFixed)[k] == Calls(dataFixed, noise, NumTrials);
    assert Dispatched(dataFixed)[k][s] == Call(DataFactor(dataFixed, noise), noise, s);
    assert IntToStr(1) == "1";
  }

  /** The two dictionaries hold, for exactly the particle counts in `done`,
      the pair `expected` gives for that count. */
  ghost predicate Filled(positionErrorsD: map<nat, seq<Option<real>>>, aneesD: map<nat, seq<Option<real>>>,
                         done: seq<nat>, expected: nat -> (seq<Option<real>>, seq<Option<real>>))
  {
    && positionErrorsD.Keys == aneesD.Keys
    && (forall n :: n in positionErrorsD <==> n in done)
    && forall n :: n in positionErrorsD ==> (positionErrorsD[n], aneesD[n]) == expected(n)
  }

  /** Storing the pair of the next particle count keeps the dictionaries filled
      for one more entry of the option list. */
  lemma FilledStep(positionErrorsD: map<nat, seq<Option<real>>>, aneesD: map<nat, seq<Option<real>>>,
                   options: seq<nat>, i: nat, expected: nat -> (seq<Option<real>>, seq<Option<real>>),
                   e: seq<Option<real>>, a: seq<Option<real>>)
    requires i < |options|
    requires Filled(positionErrorsD, aneesD, options[..i], expected)
    requires (e, a) == expected(options[i])
    ensures Filled(positionErrorsD[options[i] := e], aneesD[options[i] := a], options[..i + 1], expected)
  {
    assert options[..i + 1] == options[..i] + [options[i]];
  }

  /** Dictionaries filled for all of `particle_options` have exactly the keys
      20, 50 and 500. */
  lemma FilledKeys(positionErrorsD: map<nat, seq<Option<real>>>, aneesD: map<nat, seq<Option<real>>>,
                   expected: nat -> (seq<Option<real>>, seq<Option<real>>))
    requires Filled(positionErrorsD, aneesD, ParticleOptions, expected)
    ensures positionErrorsD.Keys == {20, 50, 500} && aneesD.Keys == {20, 50, 500}
  {
  }

  /** One pass of the particle-count loop: run the data-fixed sweep at this
      count and store its two lists under the count. */
  method StoreSimulation(host: Host, positionErrorsD: map<nat, seq<Option<real>>>,
                         aneesD: map<nat, seq<Option<real>>>, particleCount: nat)
    returns (positionErrorsD': map<nat, seq<Option<real>>>, aneesD': map<nat, seq<Option<real>>>)
    ensures positionErrorsD' == positionErrorsD[particleCount := Simulation(host, true, particleCount).0]
    ensures aneesD' == aneesD[particleCount := Simulation(host, true, particleCount).1]
  {
    var e, a, _ := RunSimulation(host, dataFixed := true, numParticles := particleCount);
    positionErrorsD' := positionErrorsD[particleCount := e];
    aneesD' := aneesD[particleCount := a];
  }

  /** The particle-count loop: one full data-fixed sweep per entry of
      `particle_options`, stored in two dictionaries keyed by the count. */
  method ParticleSweep(host: Host)
    returns (positionErrorsD: map<nat, seq<Option<real>>>, aneesD: map<nat, seq<Option<real>>>)
    ensures positionErrorsD.Keys == {20, 50, 500} && aneesD.Keys == {20, 50, 500}
    ensures forall n :: n in positionErrorsD ==> (positionErrorsD[n], aneesD[n]) == Simulation(host, true, n)
  {
    ghost var expected := (n: nat) => Simulation(host, true, n);
    positionErrorsD, aneesD := map[], map[];
    for i := 0 to |ParticleOptions|
      invariant Filled(positionErrorsD, aneesD, ParticleOptions[..i], expected)
    {
      var particleCount := ParticleOptions[i];
      var pe, av := StoreSimulation(host, positionErrorsD, aneesD, particleCount);
      FilledStep(positionErrorsD, aneesD, ParticleOptions, i, expected, pe[particleCount], av[particleCount]);
      positionErrorsD, aneesD := pe, av;
    }
    assert ParticleOptions[..|ParticleOptions|] == ParticleOptions;
    FilledKeys(positionErrorsD, aneesD, expected);
  }

  /** Against a process whose every output parses to the pair (p, a), every
      entry of every sweep is exactly (p, a), whatever the seed, the variant or
      the particle count. */
  lemma SimulationOfConstantProcess(host: Host, dataFixed: bool, numParticles: nat, p: real, a: real)
    requires forall argv :: Parse(host.run(argv), host.toFloat) == (Some(p), Some(a))
    ensures forall k :: 0 <= k < |NoiseFactors()| ==>
              Simulation(host, dataFixed, numParticles).0[k] == Some(p)
              && Simulation(host, dataFixed, numParticles).1[k] == Some(a)
  {
    var trial := PfTrial(host, numParticles);
    forall c ensures trial(c) == (Some(p), Some(a)) {
      var argv := Argv(host.floatRepr, c.dataFactor, c.filterFactor, c.seed, numParticles);
      assert trial(c) == Parse(host.run(argv), host.toFloat);
    }
    SweepOfConstantTrial(trial, dataFixed, NoiseFactors(), NumTrials, p, a);
  }
}
