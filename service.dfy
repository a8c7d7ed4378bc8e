/** The generation service: it runs the step stream of a request through a
    fresh runner, reports progress after every step, and assembles an
    interim video from the frames so far after every twentieth step. */
module Service {
  import opened Wrappers
  import opened Specs
  import opened Steps
  import opened Filenames
  import opened Runner

  const StepsDir: string := "steps"
  const OutputFilename: string := "output.png"
  /** An interim video after every this many steps. */
  const InterimSteps: nat := 20

  /** What the callback receives after each step. */
  datatype Progress = Progress(
    stepsCompleted: nat,
    stepsTotal: nat,
    name: string,
    result: Option<Call>,
    preview: Option<Call>)

  /** The report after step `st`: the step's own number out of `total`, and
      the run's finished `video` as both result and preview exactly for the
      video step. */
  function Report(st: Step, total: nat, name: string, video: Call): (p: Progress)
    ensures p.stepsCompleted == st.step && p.stepsTotal == total && p.name == name
    ensures p.result.Some? <==> st.VideoGeneration?
    ensures st.VideoGeneration? ==> p.result == Some(video)
    ensures p.preview == p.result
  {
    var result := if st.VideoGeneration? then Some(video) else None;
    Progress(st.step, total, name, result, result)
  }

  /** `reports` are the reports of the first `|reports|` steps. */
  predicate Reported(reports: seq<Progress>, steps: seq<Step>, total: nat, name: string, video: Call) {
    |reports| <= |steps|
    && forall j :: 0 <= j < |reports| ==> reports[j] == Report(steps[j], total, name, video)
  }

  lemma ReportedSnoc(reports: seq<Progress>, steps: seq<Step>, total: nat, name: string, video: Call,
                     report: Progress)
    requires Reported(reports, steps, total, name, video) && |reports| < |steps|
    requires report == Report(steps[|reports|], total, name, video)
    ensures Reported(reports + [report], steps, total, name, video)
  {
  }

  /** The number of video steps among the first `n` steps. */
  function VideoSteps(steps: seq<Step>, n: nat): (r: nat)
    requires n <= |steps|
    ensures r <= n
  {
    if n == 0 then 0 else VideoSteps(steps, n - 1) + (if steps[n - 1].VideoGeneration? then 1 else 0)
  }

  /** The interim video request for run `name`. */
  function InterimVideo(name: string): (c: Call)
    ensures c == MakeVideo("output" + ("-" + name + "-interim.mp4"), StepsDir)
  {
    InterimOutput(name);
    MakeVideo(InterimName(name, OutputFilename), StepsDir)
  }

  /** Every twentieth step, the interim video on top of what the runner
      did. */
  function Interim(w: World, step: nat, name: string): World {
    if step % InterimSteps == 0 then World(w.state, w.files + Produces(InterimVideo(name)), w.calls + [InterimVideo(name)])
    else w
  }

  /** One pass of the service's loop: the runner's step, then the interim
      check. */
  function ServiceStep(w: World, st: Step, motion: Motion, output: string, stepsDir: string, name: string): World {
    Interim(Apply(w, st, motion, output, stepsDir, name), st.step, name)
  }

  /** The service's loop over `steps` from `w`; `motion(n)` is the camera
      motion at step `n`. */
  function Run(w: World, steps: seq<Step>, motion: nat -> Motion, output: string, stepsDir: string, name: string): World
    decreases |steps|
  {
    if steps == [] then w
    else
      var last := steps[|steps| - 1];
      ServiceStep(Run(w, steps[..|steps| - 1], motion, output, stepsDir, name), last, motion(last.step),
                  output, stepsDir, name)
  }

  /** A run over the first `n` steps is the run over the first `n - 1`
      followed by step `n`. */
  lemma RunSnoc(w: World, steps: seq<Step>, n: nat, motion: nat -> Motion,
                output: string, stepsDir: string, name: string)
    requires 0 < n <= |steps|
    ensures Run(w, steps[..n], motion, output, stepsDir, name)
         == ServiceStep(Run(w, steps[..n - 1], motion, output, stepsDir, name), steps[n - 1],
                        motion(steps[n - 1].step), output, stepsDir, name)
  {
    assert steps[..n][..n - 1] == steps[..n - 1];
  }

  /** The runner's state after a sequence of steps. */
  function States(r: RunnerState, steps: seq<Step>): RunnerState
    decreases |steps|
  {
    if steps == [] then r else NextState(States(r, steps[..|steps| - 1]), steps[|steps| - 1])
  }

  /** The runner's state after a run depends on the steps alone: not on the
      files, the calls or the camera motion. */
  lemma {:induction false} RunState(w: World, steps: seq<Step>, motion: nat -> Motion,
                                    output: string, stepsDir: string, name: string)
    ensures Run(w, steps, motion, output, stepsDir, name).state == States(w.state, steps)
    decreases |steps|
  {
    if steps != [] {
      RunState(w, steps[..|steps| - 1], motion, output, stepsDir, name);
    }
  }

  /** A run only ever appends calls. */
  lemma {:induction false} RunExtends(w: World, steps: seq<Step>, motion: nat -> Motion,
                                      output: string, stepsDir: string, name: string)
    ensures |Run(w, steps, motion, output, stepsDir, name).calls| >= |w.calls|
    ensures Run(w, steps, motion, output, stepsDir, name).calls[..|w.calls|] == w.calls
    decreases |steps|
  {
    if steps != [] {
      var v := Run(w, steps[..|steps| - 1], motion, output, stepsDir, name);
      RunExtends(w, steps[..|steps| - 1], motion, output, stepsDir, name);
      var u := Run(w, steps, motion, output, stepsDir, name);
      assert u.calls[..|v.calls|] == v.calls;
      assert u.calls[..|w.calls|] == v.calls[..|w.calls|];
    }
  }

  /** One pass of the loop asks for one video assembly for a video step and
      one for every twentieth step. */
  lemma StepAssemblies(w: World, st: Step, motion: Motion, output: string, stepsDir: string, name: string)
    ensures Count(ServiceStep(w, st, motion, output, stepsDir, name).calls, Assembly)
         == Count(w.calls, Assembly)
            + (if st.VideoGeneration? then 1 else 0) + (if st.step % InterimSteps == 0 then 1 else 0)
  {
    var v := Apply(w, st, motion, output, stepsDir, name);
    match st
    case ImageGeneration(_, s, text, style, videoStep) =>
      var plan := StagePlan(s, NextPrompt(w.state.text, w.state.style, text, style), output in w.files, motion,
                            StepNames(output, stepsDir, videoStep, name));
      StageCounts(s, NextPrompt(w.state.text, w.state.style, text, style), output in w.files, motion,
                  StepNames(output, stepsDir, videoStep, name));
      CountAppend(w.calls, plan, Assembly);
      InterimAssemblies(v, st.step, name);
    case VideoGeneration(_) =>
      CountAppend(w.calls, [MakeVideo(VideoName(name, output), stepsDir)], Assembly);
      InterimAssemblies(v, st.step, name);
    case CleanFiles(_) =>
      InterimAssemblies(v, st.step, name);
  }

  lemma InterimAssemblies(w: World, step: nat, name: string)
    ensures Count(Interim(w, step, name).calls, Assembly)
         == Count(w.calls, Assembly) + (if step % InterimSteps == 0 then 1 else 0)
  {
    if step % InterimSteps == 0 {
      CountAppend(w.calls, [InterimVideo(name)], Assembly);
    }
  }

  lemma LastStepAssemblies(w: World, steps: seq<Step>, n: nat, motion: nat -> Motion,
                            output: string, stepsDir: string, name: string)
    requires 0 < n <= |steps|
    ensures Count(Run(w, steps[..n], motion, output, stepsDir, name).calls, Assembly)
         == Count(Run(w, steps[..n - 1], motion, output, stepsDir, name).calls, Assembly)
            + (if steps[n - 1].VideoGeneration? then 1 else 0) + (if steps[n - 1].step % InterimSteps == 0 then 1 else 0)
  {
    RunSnoc(w, steps, n, motion, output, stepsDir, name);
    StepAssemblies(Run(w, steps[..n - 1], motion, output, stepsDir, name), steps[n - 1], motion(steps[n - 1].step),
                   output, stepsDir, name);
  }

  /** Among the steps numbered 1 to `n + 1`, one more is a multiple of the
      interim interval than among 1 to `n` exactly when `n + 1` is. */
  lemma InterimTally(n: nat)
    ensures (n + 1) / InterimSteps == n / InterimSteps + (if (n + 1) % InterimSteps == 0 then 1 else 0)
  {
  }

  /** Over steps numbered 1, 2, …, the run asks for one video assembly per
      video step and one per twentieth step. */
  lemma {:induction false} RunAssemblies(w: World, steps: seq<Step>, n: nat, motion: nat -> Motion,
                                         output: string, stepsDir: string, name: string)
    requires n <= |steps|
    requires forall j :: 0 <= j < |steps| ==> steps[j].step == j + 1
    ensures Count(Run(w, steps[..n], motion, output, stepsDir, name).calls, Assembly)
         == Count(w.calls, Assembly) + VideoSteps(steps, n) + n / InterimSteps
  {
    if n > 0 {
      RunAssemblies(w, steps, n - 1, motion, output, stepsDir, name);
      LastStepAssemblies(w, steps, n, motion, output, stepsDir, name);
      InterimTally(n - 1);
    }
  }

  class GenerationService {
    const services: Services

    constructor(services: Services)
      ensures this.services == services
    {
      this.services := services;
    }

    /** Run a whole request as run `name`; `motion(n)` is the camera motion
        at step `n`.
        Returns the progress reports in order: one per step, numbered 1 to
        the total, which is the stream's length. The calls made and the
        files left are those of the modelled run from a fresh runner. Every
        video step yields one assembly request, and so does every twentieth
        step. */
    method Handle(spec: GenerationSpec, name: string, motion: nat -> Motion) returns (reports: seq<Progress>)
      modifies services
      ensures |reports| == |IterateSteps(spec)| == TotalSteps(spec)
      ensures forall i :: 0 <= i < |reports| ==>
                reports[i] == Report(IterateSteps(spec)[i], TotalSteps(spec), name,
                                     MakeVideo(VideoName(name, OutputFilename), StepsDir))
      ensures forall i :: 0 <= i < |reports| ==> reports[i].stepsCompleted == i + 1
      ensures |reports| > 0 ==> reports[|reports| - 1].stepsCompleted == reports[|reports| - 1].stepsTotal
      ensures var w := Run(World(Initial, old(services.files), old(services.calls)), IterateSteps(spec), motion,
                           OutputFilename, StepsDir, name);
              services.calls == w.calls && services.files == w.files
      ensures Count(services.calls, Assembly)
           == Count(old(services.calls), Assembly)
              + VideoSteps(IterateSteps(spec), |reports|) + |reports| / InterimSteps
    {
      var runner := new GenerationRunner(services, OutputFilename, StepsDir, name);
      ghost var video := MakeVideo(VideoName(name, OutputFilename), StepsDir);
      var total := CalculateTotalSteps(spec);
      var steps := IterateStepsLoop(spec);
      StepIndices(spec);
      reports := RunSteps(runner, steps, total, motion, video);
    }

    /** The loop in `handle`: every step in order, one report each. */
    method RunSteps(runner: GenerationRunner, steps: seq<Step>, total: nat, motion: nat -> Motion, ghost video: Call)
      returns (reports: seq<Progress>)
      requires runner.Valid() && runner.services == services
      requires video == MakeVideo(VideoName(runner.generationName, runner.outputFilename), runner.stepsDir)
      requires forall j :: 0 <= j < |steps| ==> steps[j].step == j + 1
      modifies runner, services
      ensures |reports| == |steps|
      ensures Reported(reports, steps, total, runner.generationName, video)
      ensures runner.Snapshot()
           == Run(old(runner.Snapshot()), steps, motion, runner.outputFilename, runner.stepsDir, runner.generationName)
      ensures Count(services.calls, Assembly)
           == Count(old(services.calls), Assembly) + VideoSteps(steps, |steps|) + |steps| / InterimSteps
    {
      reports := [];
      var i := 0;
      while i < |steps|
        invariant 0 <= i <= |steps|
        invariant runner.Valid()
        invariant |reports| == i
        invariant Reported(reports, steps, total, runner.generationName, video)
        invariant runner.Snapshot()
               == Run(old(runner.Snapshot()), steps[..i], motion,
                      runner.outputFilename, runner.stepsDir, runner.generationName)
      {
        var report := HandleStep(runner, steps[i], total, motion(steps[i].step), video);
        ReportedSnoc(reports, steps, total, runner.generationName, video, report);
        reports := reports + [report];
        assert steps[..i + 1][..i] == steps[..i];
        i := i + 1;
      }
      assert steps[..i] == steps;
      RunAssemblies(old(runner.Snapshot()), steps, |steps|, motion,
                    runner.outputFilename, runner.stepsDir, runner.generationName);
    }

    /** One pass of the loop in `handle`: run the step, report it, then
        check for an interim video. */
    method HandleStep(runner: GenerationRunner, st: Step, total: nat, motion: Motion, ghost video: Call)
      returns (report: Progress)
      requires runner.Valid() && runner.services == services
      requires video == MakeVideo(VideoName(runner.generationName, runner.outputFilename), runner.stepsDir)
      modifies runner, services
      ensures runner.Valid()
      ensures report == Report(st, total, runner.generationName, video)
      ensures runner.Snapshot()
           == ServiceStep(old(runner.Snapshot()), st, motion,
                          runner.outputFilename, runner.stepsDir, runner.generationName)
    {
      var result := runner.Handle(st, motion);
      var preview := if st.VideoGeneration? then result else None;
      result := if st.VideoGeneration? then result else None;
      report := Progress(st.step, total, runner.generationName, result, preview);
      HandleInterim(st.step, total, runner.generationName);
    }

    /** After step `step` of `steps`: every twentieth step assembles an
        interim video from the frames so far. */
    method HandleInterim(step: nat, steps: nat, name: string)
      modifies services
      ensures step % InterimSteps == 0 ==> services.calls == old(services.calls) + [InterimVideo(name)]
      ensures step % InterimSteps == 0 ==> services.files == old(services.files) + Produces(InterimVideo(name))
      ensures step % InterimSteps != 0 ==> services.calls == old(services.calls)
      ensures step % InterimSteps != 0 ==> services.files == old(services.files)
    {
      if step % InterimSteps == 0 {
        MakeInterimVideo(name);
      }
    }

    /** Assemble `output-<name>-interim.mp4` from the steps directory. */
    method MakeInterimVideo(name: string)
      modifies services
      ensures services.calls == old(services.calls) + [InterimVideo(name)]
      ensures services.files == old(services.files) + Produces(InterimVideo(name))
    {
      var outputFile := Replace(OutputFilename, ".png", "-" + name + "-interim.mp4");
      services.Handle(MakeVideo(outputFile, StepsDir));
    }
  }
}
