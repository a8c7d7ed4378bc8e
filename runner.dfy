/** The generation runner: it carries one run's state from step to step
    and turns each image step into calls on the image services.

    The services themselves (VQGAN+CLIP, inpainting, ISR upscaling, video
    assembly and file publishing) are not modelled: each call becomes an
    entry in a trace kept by `Services`, which also keeps the set of files
    that exist. A call that names an output file leaves that file behind. */
module Runner {
  import opened Wrappers
  import opened Specs
  import opened Steps
  import opened Filenames

  // ---------------------------------------------------------------------
  // Crossfade between prompts

  /** The transition advances by 0.01 per call, so it reaches 1 after 100
      calls; the model counts those calls. */
  const TransitionTicks: nat := 100

  /** One half of a prompt: a plain text, or the blend
      `from : 1 - t | to : t` with weight t = ticks / 100. */
  datatype Part = Plain(value: string) | Blend(from: string, to: string, ticks: nat)

  /** The prompt handed to the generator: the text part, then `| style`
      when the step has a style. */
  datatype Prompt = Prompt(text: Part, style: Option<Part>)

  /** The last committed value and the transition towards a new one. */
  datatype Fade = Fade(last: Option<string>, ticks: nat)

  /** One call's worth of crossfade for an incoming value. */
  function Crossfade(f: Fade, incoming: string): (r: (Part, Fade))
    ensures f.last.None? ==> r == (Plain(incoming), Fade(Some(incoming), f.ticks))
    ensures f.last == Some(incoming) ==> r == (Plain(incoming), f)
    ensures f.last.Some? && f.last.value != incoming && f.ticks < TransitionTicks ==>
              r == (Blend(f.last.value, incoming, f.ticks), Fade(f.last, f.ticks + 1))
    ensures f.last.Some? && f.last.value != incoming && f.ticks >= TransitionTicks ==>
              r == (Plain(incoming), Fade(Some(incoming), 0))
  {
    var last := if f.last.None? then incoming else f.last.value;
    if incoming == last then (Plain(incoming), Fade(Some(last), f.ticks))
    else if f.ticks < TransitionTicks then (Blend(last, incoming, f.ticks), Fade(Some(last), f.ticks + 1))
    else (Plain(incoming), Fade(Some(incoming), 0))
  }

  /** The style crossfade runs only for steps that carry a style; a step
      without one leaves the style state alone and adds no style part. */
  function StyleCrossfade(f: Fade, style: Option<string>): (r: (Option<Part>, Fade))
    ensures style.None? ==> r.0.None? && r.1 == f
    ensures style.Some? ==> r.0 == Some(Crossfade(f, style.value).0) && r.1 == Crossfade(f, style.value).1
  {
    match style
    case None => (None, f)
    case Some(s) =>
      var (p, g) := Crossfade(f, s);
      (Some(p), g)
  }

  /** Whatever the state, the prompt always features the incoming value,
      and the transition never passes 100 ticks. */
  lemma CrossfadeFeaturesIncoming(f: Fade, incoming: string)
    requires f.ticks <= TransitionTicks
    ensures Crossfade(f, incoming).0.Plain? ==> Crossfade(f, incoming).0.value == incoming
    ensures Crossfade(f, incoming).0.Blend? ==> Crossfade(f, incoming).0.to == incoming
    ensures Crossfade(f, incoming).0.Blend? ==> Crossfade(f, incoming).0.ticks < TransitionTicks
    ensures Crossfade(f, incoming).1.ticks <= TransitionTicks
    ensures Crossfade(f, incoming).1.last.Some?
  {
  }

  /** The same value fed `n` times in a row: the prompts produced, and the
      state left behind. */
  function Feed(f: Fade, incoming: string, n: nat): (r: (seq<Part>, Fade))
    ensures |r.0| == n
  {
    if n == 0 then ([], f)
    else
      var (parts, g) := Feed(f, incoming, n - 1);
      var (p, h) := Crossfade(g, incoming);
      (parts + [p], h)
  }

  /** Switching from a committed `a` to `b` blends for as many calls as
      ticks remain, with the weight of `b` rising by one tick per call. */
  lemma {:induction false} FeedBlends(a: string, b: string, k: nat, n: nat)
    requires a != b && k + n <= TransitionTicks
    ensures Feed(Fade(Some(a), k), b, n).1 == Fade(Some(a), k + n)
    ensures forall i :: 0 <= i < n ==> Feed(Fade(Some(a), k), b, n).0[i] == Blend(a, b, k + i)
  {
    if n > 0 {
      FeedBlends(a, b, k, n - 1);
    }
  }

  /** A change of text fresh after a commit takes 100 blended calls; the
      101st call commits the new text, resets the transition and gives the
      plain new text. */
  lemma FullTransition(a: string, b: string)
    requires a != b
    ensures Feed(Fade(Some(a), 0), b, TransitionTicks + 1).1 == Fade(Some(b), 0)
    ensures forall i :: 0 <= i < TransitionTicks ==>
              Feed(Fade(Some(a), 0), b, TransitionTicks + 1).0[i] == Blend(a, b, i)
    ensures Feed(Fade(Some(a), 0), b, TransitionTicks + 1).0[TransitionTicks] == Plain(b)
  {
    FeedBlends(a, b, 0, TransitionTicks);
  }

  // ---------------------------------------------------------------------
  // The calls an image step makes

  datatype Shift = Shift(x: real, y: real, z: real)

  /** What `Translate.move()` answers for a step, with the shift it reports. */
  datatype Motion = Motion(moving: bool, shift: Shift)

  /** The camera-motion object: built from a spec's velocities, chained to
      the one it replaces. */
  datatype Translate = Translate(velocity: Shift, previous: Option<Translate>)

  /** A request to one of the services. */
  datatype Call =
    | VqganClip(prompt: Prompt, maxIterations: int, initImage: Option<string>, output: string)
    | Inpainting(input: string, shift: Shift, output: string)
    | Isr(input: string, output: string)
    | CopyFile(source: string, target: string)
    | Put(file: string, name: string)
    | MakeVideo(output: string, stepsDir: string)

  /** The file a call leaves behind. */
  function Produces(c: Call): (r: set<string>)
    ensures c.Put? <==> r == {}
  {
    match c
    case VqganClip(_, _, _, output) => {output}
    case Inpainting(_, _, output) => {output}
    case Isr(_, output) => {output}
    case CopyFile(_, target) => {target}
    case Put(_, _) => {}
    case MakeVideo(output, _) => {output}
  }

  /** A call made only when `b` holds. */
  function When(b: bool, c: Call): (r: seq<Call>)
    ensures |r| == if b then 1 else 0
  {
    if b then [c] else []
  }

  /** The file names one image step works with: the output image, its
      upscaled name, the frame path (for a truthy video step) and the
      preview's published name. */
  datatype Names = Names(output: string, upscaled: string, frame: Option<string>, preview: string)

  /** `video_step` is truthy: present and not 0. */
  predicate Truthy(videoStep: Option<nat>) {
    videoStep.Some? && videoStep.value != 0
  }

  /** The names the runner derives for a step. */
  function StepNames(output: string, stepsDir: string, videoStep: Option<nat>, name: string): (n: Names)
    ensures n.output == output && n.upscaled == Upscaled(output)
    ensures n.frame.Some? <==> Truthy(videoStep)
    ensures Truthy(videoStep) ==> n.frame == Some(Join(stepsDir, FrameName(videoStep.value)))
    ensures n.preview == name + "-preview.png"
  {
    Names(output, Upscaled(output),
          if Truthy(videoStep) then Some(Join(stepsDir, FrameName(videoStep.value))) else None,
          name + "-preview.png")
  }

  /** The generator passes: an initial pass when the spec asks for one and
      there is no image yet, then the main pass, seeded with the image if
      there is one by then. */
  function PassCalls(spec: ImageSpec, prompt: Prompt, output: string, present: bool): seq<Call> {
    var init := spec.initIterations != 0 && !present;
    When(init, VqganClip(prompt, spec.initIterations, None, output))
    + When(true, VqganClip(prompt, spec.iterations, if present || init then Some(output) else None, output))
  }

  /** The image the step ends with: the output, or its upscaled copy. */
  function FinalImage(spec: ImageSpec, names: Names): string {
    if spec.upscale then names.upscaled else names.output
  }

  /** After the passes: inpainting when moving, upscaling when asked, the
      frame copy inside a video, and publishing the preview. */
  function FinishCalls(spec: ImageSpec, names: Names, motion: Motion): seq<Call> {
    When(motion.moving, Inpainting(names.output, motion.shift, names.output))
    + When(spec.upscale, Isr(names.output, names.upscaled))
    + When(names.frame.Some?, CopyFile(FinalImage(spec, names), if names.frame.Some? then names.frame.value else ""))
    + When(true, Put(names.output, names.preview))
  }

  /** Every call of one image step, in order. */
  function StagePlan(spec: ImageSpec, prompt: Prompt, present: bool, motion: Motion, names: Names): seq<Call> {
    PassCalls(spec, prompt, names.output, present) + FinishCalls(spec, names, motion)
  }

  // Looking at a trace one kind of call at a time.

  datatype Kind = Pass | Inpaint | Upscale | Copy | Publish | Assembly

  function KindOf(c: Call): Kind {
    match c
    case VqganClip(_, _, _, _) => Pass
    case Inpainting(_, _, _) => Inpaint
    case Isr(_, _) => Upscale
    case CopyFile(_, _) => Copy
    case Put(_, _) => Publish
    case MakeVideo(_, _) => Assembly
  }

  /** How many calls of kind `k` a trace holds. */
  function Count(calls: seq<Call>, k: Kind): (n: nat)
    ensures n <= |calls|
  {
    if calls == [] then 0
    else (if KindOf(calls[0]) == k then 1 else 0) + Count(calls[1..], k)
  }

  lemma {:induction false} CountAppend(a: seq<Call>, b: seq<Call>, k: Kind)
    ensures Count(a + b, k) == Count(a, k) + Count(b, k)
    decreases |a|
  {
    if a == [] {
      assert a + b == b;
    } else {
      assert (a + b)[1..] == a[1..] + b;
      CountAppend(a[1..], b, k);
    }
  }

  lemma CountWhen(b: bool, c: Call, k: Kind)
    ensures Count(When(b, c), k) == if b && KindOf(c) == k then 1 else 0
  {
    if b {
      assert When(b, c)[1..] == [];
    }
  }

  /** How many calls of each kind the finishing calls hold. */
  lemma CountFinish(spec: ImageSpec, names: Names, motion: Motion, k: Kind)
    ensures Count(FinishCalls(spec, names, motion), k)
         == (if motion.moving && k == Inpaint then 1 else 0)
            + (if spec.upscale && k == Upscale then 1 else 0)
            + (if names.frame.Some? && k == Copy then 1 else 0)
            + (if k == Publish then 1 else 0)
  {
    var inpaint := When(motion.moving, Inpainting(names.output, motion.shift, names.output));
    var upscale := When(spec.upscale, Isr(names.output, names.upscaled));
    var copy := When(names.frame.Some?, CopyFile(FinalImage(spec, names),
                                                 if names.frame.Some? then names.frame.value else ""));
    var put := When(true, Put(names.output, names.preview));
    CountWhen(motion.moving, Inpainting(names.output, motion.shift, names.output), k);
    CountWhen(spec.upscale, Isr(names.output, names.upscaled), k);
    CountWhen(names.frame.Some?, CopyFile(FinalImage(spec, names),
                                          if names.frame.Some? then names.frame.value else ""), k);
    CountWhen(true, Put(names.output, names.preview), k);
    CountAppend(inpaint, upscale, k);
    CountAppend(inpaint + upscale, copy, k);
    CountAppend(inpaint + upscale + copy, put, k);
  }

  /** How many calls of each kind the passes hold. */
  lemma CountPasses(spec: ImageSpec, prompt: Prompt, output: string, present: bool, k: Kind)
    ensures Count(PassCalls(spec, prompt, output, present), k)
         == if k != Pass then 0 else if spec.initIterations != 0 && !present then 2 else 1
  {
    var init := spec.initIterations != 0 && !present;
    var first := VqganClip(prompt, spec.initIterations, None, output);
    var main := VqganClip(prompt, spec.iterations, if present || init then Some(output) else None, output);
    CountWhen(init, first, k);
    CountWhen(true, main, k);
    CountAppend(When(init, first), When(true, main), k);
  }

  /** How often each kind of call occurs in one image step:
      - two generator passes exactly when the spec has initial iterations
        and there is no image yet, otherwise one;
      - one inpainting exactly when the camera moved;
      - one ISR upscaling exactly when the spec asks for it;
      - one frame copy exactly when the step has a frame (a truthy video
        step);
      - always one preview, and never a video. */
  lemma StageCounts(spec: ImageSpec, prompt: Prompt, present: bool, motion: Motion, names: Names)
    ensures var plan := StagePlan(spec, prompt, present, motion, names);
      && Count(plan, Pass) == (if spec.initIterations != 0 && !present then 2 else 1)
      && Count(plan, Inpaint) == (if motion.moving then 1 else 0)
      && Count(plan, Upscale) == (if spec.upscale then 1 else 0)
      && Count(plan, Copy) == (if names.frame.Some? then 1 else 0)
      && Count(plan, Publish) == 1
      && Count(plan, Assembly) == 0
  {
    var passes := PassCalls(spec, prompt, names.output, present);
    var finish := FinishCalls(spec, names, motion);
    forall k: Kind
      ensures Count(passes + finish, k) == Count(passes, k) + Count(finish, k)
      ensures Count(passes, k) == if k != Pass then 0 else if spec.initIterations != 0 && !present then 2 else 1
      ensures Count(finish, k)
           == (if motion.moving && k == Inpaint then 1 else 0)
              + (if spec.upscale && k == Upscale then 1 else 0)
              + (if names.frame.Some? && k == Copy then 1 else 0)
              + (if k == Publish then 1 else 0)
    {
      CountAppend(passes, finish, k);
      CountPasses(spec, prompt, names.output, present, k);
      CountFinish(spec, names, motion, k);
    }
  }

  /** Where the calls of one image step sit and what they ask for:
      - the initial pass (if any) comes first, with the initial iterations
        and no seed image;
      - the main pass follows, with the spec's iterations, seeded with the
        output image whenever one exists by then;
      - inpainting works on the output file in place with the reported
        shift; ISR writes the upscaled name;
      - the frame copy takes the final image (upscaled or not) to the
        frame path;
      - the preview is always published from the output file, upscaled or
        not, as the last call. */
  lemma StageCalls(spec: ImageSpec, prompt: Prompt, present: bool, motion: Motion, names: Names)
    ensures var plan := StagePlan(spec, prompt, present, motion, names);
      var init := spec.initIterations != 0 && !present;
      var main := if init then 1 else 0;
      && |plan| >= main + 2
      && (init ==> plan[0] == VqganClip(prompt, spec.initIterations, None, names.output))
      && plan[main]
         == VqganClip(prompt, spec.iterations, if present || init then Some(names.output) else None, names.output)
      && (motion.moving ==> Inpainting(names.output, motion.shift, names.output) in plan)
      && (spec.upscale ==> Isr(names.output, names.upscaled) in plan)
      && (names.frame.Some? ==> CopyFile(FinalImage(spec, names), names.frame.value) in plan)
      && plan[|plan| - 1] == Put(names.output, names.preview)
  {
    var plan := StagePlan(spec, prompt, present, motion, names);
    var passes := PassCalls(spec, prompt, names.output, present);
    var inpaint := When(motion.moving, Inpainting(names.output, motion.shift, names.output));
    var upscale := When(spec.upscale, Isr(names.output, names.upscaled));
    var copy := When(names.frame.Some?, CopyFile(FinalImage(spec, names),
                                                 if names.frame.Some? then names.frame.value else ""));
    var put := When(true, Put(names.output, names.preview));
    assert plan == passes + (inpaint + upscale + copy + put);
    assert plan[|plan| - 1] == put[0];
    if motion.moving {
      assert plan[|passes|] == inpaint[0];
    }
    if spec.upscale {
      assert plan[|passes| + |inpaint|] == upscale[0];
    }
    if names.frame.Some? {
      assert plan[|passes| + |inpaint| + |upscale|] == copy[0];
    }
  }

  // ---------------------------------------------------------------------
  // The collaborators and the runner

  /** The services the runner calls, as a trace of requests, and the files
      that exist. */
  class Services {
    var files: set<string>
    var calls: seq<Call>

    constructor(files: set<string>)
      ensures this.files == files && calls == []
    {
      this.files := files;
      calls := [];
    }

    /** One request to a service, which leaves its output file behind. */
    method Handle(c: Call)
      modifies this
      ensures calls == old(calls) + [c]
      ensures files == old(files) + Produces(c)
    {
      calls := calls + [c];
      files := files + Produces(c);
    }

    /** `os.remove`. */
    method Remove(path: string)
      modifies this
      ensures files == old(files) - {path}
      ensures calls == old(calls)
    {
      files := files - {path};
    }
  }

  /** The prompt an image step is given, from the two fades before it. */
  function NextPrompt(text: Fade, style: Fade, t: string, s: Option<string>): (p: Prompt)
    ensures p.style.Some? <==> s.Some?
  {
    Prompt(Crossfade(text, t).0, StyleCrossfade(style, s).0)
  }

  /** The files a sequence of calls leaves behind. */
  function Outputs(calls: seq<Call>): set<string> {
    if calls == [] then {} else Produces(calls[0]) + Outputs(calls[1..])
  }

  lemma {:induction false} OutputsAppend(a: seq<Call>, b: seq<Call>)
    ensures Outputs(a + b) == Outputs(a) + Outputs(b)
    decreases |a|
  {
    if a == [] {
      assert a + b == b;
    } else {
      assert (a + b)[1..] == a[1..] + b;
      OutputsAppend(a[1..], b);
    }
  }

  lemma OutputsWhen(b: bool, c: Call)
    ensures Outputs(When(b, c)) == if b then Produces(c) else {}
  {
    if b {
      assert [c][1..] == [];
    }
  }

  /** The finishing calls leave the inpainted output, the upscaled copy and
      the frame behind, each only when its call is made. */
  function FinishFiles(spec: ImageSpec, names: Names, motion: Motion): set<string> {
    (if motion.moving then {names.output} else {})
    + (if spec.upscale then {names.upscaled} else {})
    + (if names.frame.Some? then {names.frame.value} else {})
  }

  lemma FinishOutputs(spec: ImageSpec, names: Names, motion: Motion)
    ensures Outputs(FinishCalls(spec, names, motion)) == FinishFiles(spec, names, motion)
  {
    var inpaint := When(motion.moving, Inpainting(names.output, motion.shift, names.output));
    var upscale := When(spec.upscale, Isr(names.output, names.upscaled));
    var copy := When(names.frame.Some?, CopyFile(FinalImage(spec, names),
                                                 if names.frame.Some? then names.frame.value else ""));
    var put := When(true, Put(names.output, names.preview));
    OutputsAppend(inpaint + upscale + copy, put);
    OutputsAppend(inpaint + upscale, copy);
    OutputsAppend(inpaint, upscale);
    OutputsWhen(motion.moving, Inpainting(names.output, motion.shift, names.output));
    OutputsWhen(spec.upscale, Isr(names.output, names.upscaled));
    OutputsWhen(names.frame.Some?, CopyFile(FinalImage(spec, names),
                                            if names.frame.Some? then names.frame.value else ""));
    OutputsWhen(true, Put(names.output, names.preview));
  }

  /** An image step leaves its output image behind, plus whatever the
      finishing calls write. */
  lemma PlanOutputs(spec: ImageSpec, prompt: Prompt, present: bool, motion: Motion, names: Names)
    ensures Outputs(StagePlan(spec, prompt, present, motion, names)) == {names.output} + FinishFiles(spec, names, motion)
  {
    var init := spec.initIterations != 0 && !present;
    var first := VqganClip(prompt, spec.initIterations, None, names.output);
    var main := VqganClip(prompt, spec.iterations, if present || init then Some(names.output) else None, names.output);
    OutputsAppend(PassCalls(spec, prompt, names.output, present), FinishCalls(spec, names, motion));
    OutputsAppend(When(init, first), When(true, main));
    OutputsWhen(init, first);
    OutputsWhen(true, main);
    FinishOutputs(spec, names, motion);
  }

  /** What a runner carries from one step to the next: the current spec,
      the camera motion, and the text and style crossfades. */
  datatype RunnerState = RunnerState(spec: Option<ImageSpec>, translate: Option<Translate>, text: Fade, style: Fade)

  /** A fresh runner's state. */
  const Initial := RunnerState(None, None, Fade(None, 0), Fade(None, 0))

  /** The state after `step`: an image step selects its spec (a new camera
      motion when the spec differs by value) and advances both crossfades;
      clean and video steps leave it alone. */
  function NextState(r: RunnerState, step: Step): RunnerState {
    match step
    case ImageGeneration(_, s, text, style, _) =>
      RunnerState(Some(s),
                  if r.spec == Some(s) then r.translate
                  else Some(Translate(Shift(s.xVelocity, s.yVelocity, s.zVelocity), r.translate)),
                  Crossfade(r.text, text).1, StyleCrossfade(r.style, style).1)
    case _ => r
  }

  /** Everything a run can observe: the runner's state, the files that
      exist and the calls made so far. */
  datatype World = World(state: RunnerState, files: set<string>, calls: seq<Call>)

  /** One runner step on the world, for a runner with output file `output`,
      steps directory `stepsDir` and run name `name`. */
  function Apply(w: World, step: Step, motion: Motion, output: string, stepsDir: string, name: string): World {
    match step
    case ImageGeneration(_, s, text, style, videoStep) =>
      var plan := StagePlan(s, NextPrompt(w.state.text, w.state.style, text, style), output in w.files, motion,
                            StepNames(output, stepsDir, videoStep, name));
      World(NextState(w.state, step), w.files + Outputs(plan), w.calls + plan)
    case VideoGeneration(_) =>
      var video := MakeVideo(VideoName(name, output), stepsDir);
      World(w.state, w.files + Produces(video), w.calls + [video])
    case CleanFiles(_) =>
      World(w.state, Cleaned(w.files, output, stepsDir), w.calls)
  }

  /** A clean step leaves no output image behind, so an image step right
      after it whose spec asks for initial iterations starts with an
      unseeded initial pass. */
  lemma CleanThenInitialPass(w: World, clean: Step, image: Step, motion: Motion,
                             output: string, stepsDir: string, name: string)
    requires clean.CleanFiles? && image.ImageGeneration? && image.spec.initIterations != 0
    ensures var v := Apply(w, clean, motion, output, stepsDir, name);
      var u := Apply(v, image, motion, output, stepsDir, name);
      |u.calls| > |w.calls|
      && u.calls[|w.calls|]
         == VqganClip(NextPrompt(w.state.text, w.state.style, image.text, image.style),
                      image.spec.initIterations, None, output)
  {
    var v := Apply(w, clean, motion, output, stepsDir, name);
    assert output !in v.files && v.calls == w.calls && v.state == w.state;
    var names := StepNames(output, stepsDir, image.videoStep, name);
    var prompt := NextPrompt(w.state.text, w.state.style, image.text, image.style);
    StageCalls(image.spec, prompt, false, motion, names);
  }

  class GenerationRunner {
    const services: Services
    const outputFilename: string
    const stepsDir: string
    /** A random word in the source; given here. */
    const generationName: string

    var spec: Option<ImageSpec>
    var translate: Option<Translate>
    var lastText: Option<string>
    var textTransition: nat
    var lastStyle: Option<string>
    var styleTransition: nat

    function TextFade(): Fade
      reads this
    {
      Fade(lastText, textTransition)
    }

    function StyleFade(): Fade
      reads this
    {
      Fade(lastStyle, styleTransition)
    }

    function State(): RunnerState
      reads this
    {
      RunnerState(spec, translate, TextFade(), StyleFade())
    }

    /** The runner's state with the files and calls of its services. */
    function Snapshot(): World
      reads this, services
    {
      World(State(), services.files, services.calls)
    }

    /** Both transitions stay within 100 ticks. */
    ghost predicate Valid()
      reads this
    {
      textTransition <= TransitionTicks && styleTransition <= TransitionTicks
    }

    constructor(services: Services, outputFilename: string, stepsDir: string, generationName: string)
      ensures this.services == services && this.outputFilename == outputFilename
      ensures this.stepsDir == stepsDir && this.generationName == generationName
      ensures spec.None? && translate.None?
      ensures TextFade() == Fade(None, 0) && StyleFade() == Fade(None, 0)
      ensures State() == Initial
      ensures Valid()
    {
      this.services := services;
      this.outputFilename := outputFilename;
      this.stepsDir := stepsDir;
      this.generationName := generationName;
      spec := None;
      translate := None;
      lastText := None;
      textTransition := 0;
      lastStyle := None;
      styleTransition := 0;
    }

    /** Dispatch on the kind of step. */
    method Handle(step: Step, motion: Motion) returns (result: Option<Call>)
      requires Valid()
      modifies this, services
      ensures Valid()
      ensures step.CleanFiles? ==> result.None? && outputFilename !in services.files
      ensures step.ImageGeneration? ==> result == Some(Put(outputFilename, generationName + "-preview.png"))
      ensures step.ImageGeneration? ==> outputFilename in services.files
      ensures step.VideoGeneration? ==> result == Some(MakeVideo(VideoName(generationName, outputFilename), stepsDir))
      ensures step.CleanFiles? ==> services.calls == old(services.calls)
      ensures step.CleanFiles? ==> services.files == Cleaned(old(services.files), outputFilename, stepsDir)
      ensures step.VideoGeneration? ==> services.calls == old(services.calls) + [result.value]
      ensures step.ImageGeneration? ==>
                (services.calls
                 == old(services.calls)
                    + StagePlan(step.spec, NextPrompt(old(TextFade()), old(StyleFade()), step.text, step.style),
                                old(outputFilename in services.files), motion,
                                StepNames(outputFilename, stepsDir, step.videoStep, generationName)))
      ensures !step.ImageGeneration? ==>
                spec == old(spec) && translate == old(translate)
                && TextFade() == old(TextFade()) && StyleFade() == old(StyleFade())
      ensures step.ImageGeneration? ==> spec == Some(step.spec)
      ensures step.ImageGeneration? && old(spec) == Some(step.spec) ==> translate == old(translate)
      ensures step.ImageGeneration? && old(spec) != Some(step.spec) ==>
                translate == Some(Translate(Shift(step.spec.xVelocity, step.spec.yVelocity, step.spec.zVelocity),
                                            old(translate)))
      ensures step.ImageGeneration? ==>
                TextFade() == Crossfade(old(TextFade()), step.text).1
                && StyleFade() == StyleCrossfade(old(StyleFade()), step.style).1
      ensures Snapshot() == Apply(old(Snapshot()), step, motion, outputFilename, stepsDir, generationName)
    {
      match step
      case ImageGeneration(_, _, _, _, _) =>
        var r := GenerateImage(step, motion);
        result := Some(r);
      case VideoGeneration(_) =>
        var r := MakeVideoStep();
        result := Some(r);
      case CleanFiles(_) =>
        CleanFiles();
        result := None;
    }

    /** The prompt of one image step, advancing both crossfades. */
    method Compose(text: string, style: Option<string>) returns (prompt: Prompt)
      requires Valid()
      modifies this
      ensures Valid()
      ensures prompt == NextPrompt(old(TextFade()), old(StyleFade()), text, style)
      ensures TextFade() == Crossfade(old(TextFade()), text).1
      ensures StyleFade() == StyleCrossfade(old(StyleFade()), style).1
      ensures spec == old(spec) && translate == old(translate)
    {
      if lastText.None? {
        lastText := Some(text);
      }
      if lastStyle.None? {
        lastStyle := style;
      }
      var textPart := Plain(text);
      if Some(text) != lastText {
        if textTransition < TransitionTicks {
          textPart := Blend(lastText.value, text, textTransition);
          textTransition := textTransition + 1;
        } else {
          lastText := Some(text);
          textTransition := 0;
        }
      }
      var stylePart := None;
      if style.Some? {
        var styles := Plain(style.value);
        if style != lastStyle {
          if styleTransition < TransitionTicks {
            styles := Blend(lastStyle.value, style.value, styleTransition);
            styleTransition := styleTransition + 1;
          } else {
            lastStyle := style;
            styleTransition := 0;
          }
        }
        stylePart := Some(styles);
      }
      prompt := Prompt(textPart, stylePart);
    }

    /** One image step: a new camera motion when the spec changed (by value),
        the prompt, then the generator passes and the finishing calls. */
    method GenerateImage(step: Step, motion: Motion) returns (result: Call)
      requires step.ImageGeneration? && Valid()
      modifies this, services
      ensures Valid()
      ensures spec == Some(step.spec)
      ensures old(spec) == Some(step.spec) ==> translate == old(translate)
      ensures old(spec) != Some(step.spec) ==>
                translate == Some(Translate(Shift(step.spec.xVelocity, step.spec.yVelocity, step.spec.zVelocity),
                                            old(translate)))
      ensures TextFade() == Crossfade(old(TextFade()), step.text).1
      ensures StyleFade() == StyleCrossfade(old(StyleFade()), step.style).1
      ensures services.calls
           == old(services.calls)
              + StagePlan(step.spec, NextPrompt(old(TextFade()), old(StyleFade()), step.text, step.style),
                          old(outputFilename in services.files), motion,
                          StepNames(outputFilename, stepsDir, step.videoStep, generationName))
      ensures services.files
           == old(services.files)
              + Outputs(StagePlan(step.spec, NextPrompt(old(TextFade()), old(StyleFade()), step.text, step.style),
                                  old(outputFilename in services.files), motion,
                                  StepNames(outputFilename, stepsDir, step.videoStep, generationName)))
      ensures outputFilename in services.files
      ensures result == Put(outputFilename, generationName + "-preview.png")
    {
      Select(step.spec);
      var prompt := Compose(step.text, step.style);
      var names := StepNames(outputFilename, stepsDir, step.videoStep, generationName);
      result := Render(step.spec, prompt, motion, names);
    }

    /** The service calls of one image step, once the prompt is known. */
    method Render(s: ImageSpec, prompt: Prompt, motion: Motion, names: Names) returns (result: Call)
      requires names.output == outputFilename
      modifies services
      ensures services.calls
           == old(services.calls) + StagePlan(s, prompt, old(outputFilename in services.files), motion, names)
      ensures services.files
           == old(services.files) + Outputs(StagePlan(s, prompt, old(outputFilename in services.files), motion, names))
      ensures outputFilename in services.files
      ensures result == Put(names.output, names.preview)
    {
      ghost var present := outputFilename in services.files;
      RunPasses(s, prompt);
      result := Finish(s, motion, names);
      PlanOutputs(s, prompt, present, motion, names);
      ConcatAssoc(old(services.calls), PassCalls(s, prompt, outputFilename, present), FinishCalls(s, names, motion));
      UnionAssoc(old(services.files), {outputFilename}, FinishFiles(s, names, motion));
    }

    /** A spec that differs by value from the current one starts a new
        camera motion at the spec's velocities. */
    method Select(s: ImageSpec)
      modifies this
      ensures spec == Some(s)
      ensures old(spec) == Some(s) ==> translate == old(translate)
      ensures old(spec) != Some(s) ==>
                translate == Some(Translate(Shift(s.xVelocity, s.yVelocity, s.zVelocity), old(translate)))
      ensures lastText == old(lastText) && textTransition == old(textTransition)
      ensures lastStyle == old(lastStyle) && styleTransition == old(styleTransition)
    {
      if Some(s) != spec {
        spec := Some(s);
        translate := Some(Translate(Shift(s.xVelocity, s.yVelocity, s.zVelocity), translate));
      }
    }

    /** The initial and main generator passes. */
    method RunPasses(s: ImageSpec, prompt: Prompt)
      modifies services
      ensures services.calls
           == old(services.calls) + PassCalls(s, prompt, outputFilename, old(outputFilename in services.files))
      ensures services.files == old(services.files) + {outputFilename}
    {
      if s.initIterations != 0 && outputFilename !in services.files {
        services.Handle(VqganClip(prompt, s.initIterations, None, outputFilename));
      }
      var seed := if outputFilename in services.files then Some(outputFilename) else None;
      services.Handle(VqganClip(prompt, s.iterations, seed, outputFilename));
    }

    /** Inpainting, upscaling, the frame copy and the preview. */
    method Finish(s: ImageSpec, motion: Motion, names: Names) returns (result: Call)
      requires names.output in services.files
      modifies services
      ensures services.calls == old(services.calls) + FinishCalls(s, names, motion)
      ensures services.files == old(services.files) + FinishFiles(s, names, motion)
      ensures names.output in services.files
      ensures result == Put(names.output, names.preview)
    {
      if motion.moving {
        services.Handle(Inpainting(names.output, motion.shift, names.output));
      }
      var filenameToUse := names.output;
      if s.upscale {
        filenameToUse := names.upscaled;
        services.Handle(Isr(names.output, filenameToUse));
      }
      if names.frame.Some? {
        services.Handle(CopyFile(filenameToUse, names.frame.value));
      }
      result := Put(names.output, names.preview);
      services.Handle(result);
    }

    /** The video step: assemble the frames into `<name>-output.mp4`. */
    method MakeVideoStep() returns (result: Call)
      modifies services
      ensures result == MakeVideo(VideoName(generationName, outputFilename), stepsDir)
      ensures services.calls == old(services.calls) + [result]
      ensures services.files == old(services.files) + {VideoName(generationName, outputFilename)}
    {
      var filename := Replace(outputFilename, "png", "mp4");
      filename := generationName + "-" + filename;
      result := MakeVideo(filename, stepsDir);
      services.Handle(result);
    }

    /** The clean step: remove the output image and every file directly in
        the steps directory; no service is called. */
    method CleanFiles()
      modifies services
      ensures services.files == Cleaned(old(services.files), outputFilename, stepsDir)
      ensures services.calls == old(services.calls)
    {
      if outputFilename in services.files {
        services.Remove(outputFilename);
      }
      assert services.files == old(services.files) - {outputFilename};
      CleanedSplit(old(services.files), outputFilename, stepsDir);
      RemoveEntries();
    }

    /** The loop over the steps directory: every file directly in it is
        removed and nothing else. */
    method RemoveEntries()
      modifies services
      ensures services.files == old(services.files) - Listing(old(services.files), stepsDir)
      ensures services.calls == old(services.calls)
    {
      var entries := Listing(services.files, stepsDir);
      ghost var kept := services.files - entries;
      while entries != {}
        invariant services.files == kept + entries
        invariant kept !! entries
        invariant services.calls == old(services.calls)
        decreases |entries|
      {
        var f :| f in entries;
        RemoveEntry(kept, entries, f);
        services.Remove(f);
        entries := entries - {f};
      }
    }
  }

  /** The files directly inside `dir`: what `os.listdir` yields, joined. */
  function Listing(files: set<string>, dir: string): (r: set<string>)
    ensures r <= files
    ensures forall f :: f in r <==> f in files && InDir(dir, f)
  {
    set f | f in files && InDir(dir, f)
  }

  /** The files left after a clean step: neither the output image nor any
      file directly in the steps directory, and everything else kept. */
  function Cleaned(files: set<string>, output: string, stepsDir: string): (r: set<string>)
    ensures r <= files && output !in r
    ensures forall f :: f in r ==> !InDir(stepsDir, f)
    ensures forall f :: f in files && f != output && !InDir(stepsDir, f) ==> f in r
  {
    set f | f in files && f != output && !InDir(stepsDir, f)
  }

  /** Removing the output first and then the directory's entries leaves
      exactly the cleaned set. */
  lemma CleanedSplit(files: set<string>, output: string, stepsDir: string)
    ensures Cleaned(files, output, stepsDir)
         == (files - {output}) - Listing(files - {output}, stepsDir)
  {
  }

  lemma UnionAssoc<T>(a: set<T>, b: set<T>, c: set<T>)
    ensures a + b + c == a + (b + c)
  {
  }

  lemma ConcatAssoc<T>(a: seq<T>, b: seq<T>, c: seq<T>)
    ensures a + b + c == a + (b + c)
  {
  }

  /** Removing one pending entry keeps the rest of the split. */
  lemma RemoveEntry<T>(kept: set<T>, entries: set<T>, f: T)
    requires kept !! entries && f in entries
    ensures (kept + entries) - {f} == kept + (entries - {f})
  {
  }
}
