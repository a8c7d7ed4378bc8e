# vc generation core in Dafny

This project models the core of `vc`, a service that turns a generation
request into images and videos. It has three parts.

- **Step sequencer.** A request (`GenerationSpec`: image specs and videos, each with texts, styles, epochs and generator settings) becomes a numbered stream of steps:
  - one clean step per image group and per video;
  - one image step per text × style × epoch;
  - one assembly step at the end of every video.
- **Runner and service.** The runner executes the steps. It keeps the text and style crossfade state and the current spec. It decides which generator, inpainting, upscaling, copy and publish calls an image step makes, and derives every file name. The service drives the runner over the stream, reports progress after each step, and requests an interim video every twentieth step.
- **Job queue.** The job serializer writes a queued call as `[method, class_name, args, kwargs]` and resolves the class again by its dotted name when the job is loaded. The queue service creates its queue and worker lazily.

Module layout:

| file | module | models |
|---|---|---|
| `wrappers.dfy` | `Wrappers` | `Option` and `Result` |
| `specs.dfy` | `Specs` | the spec value objects and their defaults |
| `steps.dfy` | `Steps` | the sequencer as a value and as the source's counter loops |
| `filenames.dfy` | `Filenames` | `str.replace`, the frame names and the output names |
| `runner.dfy` | `Runner` | the crossfade, the per-step call plan and the `GenerationRunner` class |
| `service.dfy` | `Service` | the `GenerationService` class |
| `dispatch.dfy` | `Dispatch` | JSON tokens, `JobSerializer` and `QueueService` |

How the model represents the source:

- **Services.** Every service the runner calls becomes an entry in a call trace held by a `Services` object, together with the set of files that exist.
- **Crossfade.** The transition counts integer ticks from 0 to 100, in place of the source's float that grows by 0.01 per call. After 100 float additions the value is just above 1.0, so the new value commits on the same call as in the source: the 101st call after a change.
- **Spec change.** Datatype equality is structural, which matches the field-wise `!=` that `@dataclass` generates. The runner's spec-change check relies on this.
- **Sequencer in two layers.** `IterateSteps` is the stream as a pure value. `IterateStepsLoop` is the generator's counter loop, proved to produce exactly that value.
- **Runs in two layers.** A `World` holds the runner's state (spec, camera motion, both crossfades), the files that exist and the calls made. `Runner.Apply` is one runner step on a world, and `Service.Run` is the service's whole loop. The runner's and the service's methods are proved to leave exactly the world these functions give.

## Model

| member | source | states |
|---|---|---|
| Specs.Items | vc/value_object/generation_spec.py:11-12 | a `None` list reads as empty and a present list as itself, as the sequencer's truthiness tests treat them |
| Specs.Epochs | vc/service/generation.py:340 | `range(epochs)` runs `epochs` times, and not at all for a negative count |
| Specs.SchemaDefault | vc/value_object/generation_spec.py:21-31 | the schema defaults: empty texts and styles, 75 iterations, 200 initial iterations, 25 epochs, zero velocities, no upscaling |
| Specs.DataclassDefaults | vc/value_object/generation_spec.py:9-19 | the dataclass defaults: `None` texts and styles, 75/200/25, zero velocities, no upscaling; both `GenerationSpec` lists default to `None` |
| Specs.SchemaDefaultMirrorsDataclass | vc/value_object/generation_spec.py:11-31 | the schema and dataclass defaults differ only in empty lists versus `None`, and those read the same |
| Steps.Stamp | vc/service/generation.py:26-46 | each step kind carries its number; an image step carries its spec, text, style and frame number |
| Steps.IterateSteps | vc/service/generation.py:328-390 | the step stream as a value: image groups, then videos, numbered by one counter; its length, order and numbering are the lemmas below |
| Steps.TotalSteps | vc/service/generation.py:322-390 | the closed-form step count: each image group 1 + its jobs, each video 2 + its frames; `StepCount` ties it to the stream |
| Steps.StyleFactor | vc/service/generation.py:338-355 | a text gets one pass per style, or exactly one style-less pass when styles are `None` or empty |
| Steps.TextJobsLength | vc/service/generation.py:338-355 | one text contributes styles × epochs image steps |
| Steps.JobsCount | vc/service/generation.py:336-355 | an image spec yields \|texts\| × style factor × max(0, epochs) image steps |
| Steps.NoTextsOnlyClean | vc/service/generation.py:333-336 | a spec with `None` or empty texts yields only its clean step |
| Steps.SpecsJobsCount | vc/service/generation.py:363-387 | a video's frames number the sum of its specs' image-step counts |
| Steps.ImageGroupsCount | vc/service/generation.py:331-355 | each image group contributes 1 + its image-step count |
| Steps.VideoGroupsCount | vc/service/generation.py:357-390 | each video contributes 2 + its frame count |
| Steps.StepCount | vc/service/generation.py:328-390 | the stream's length equals the closed-form `TotalSteps` |
| Steps.StyleJobsAt | vc/service/generation.py:339-347 | within one text, style pass k and epoch j sit at k × epochs + j |
| Steps.TextsJobsAt | vc/service/generation.py:337-355 | text t's block starts at t × block size |
| Steps.JobsAt | vc/service/generation.py:336-355 | the image step at t × block + k × epochs + e has text t and style k: texts, then styles, then epochs |
| Steps.ImageGroupShape | vc/service/generation.py:332-355 | an image group is one clean step followed by its jobs in order, none of them with a frame number |
| Steps.VideoGroupShape | vc/service/generation.py:358-390 | a video is one clean step, then frames numbered 1, 2, … in job order (restarting per video), then exactly one assembly step |
| Steps.ImageGroupsShape | vc/service/generation.py:331-355 | no step of an image group belongs to a video |
| Steps.VideoGroupsShape | vc/service/generation.py:357-390 | no step of a video is a stand-alone image step |
| Steps.StepIndices | vc/service/generation.py:329-390 | the step numbers are exactly 1..N in stream order: one counter, never reset |
| Steps.ImagesBeforeVideos | vc/service/generation.py:331-390 | no stand-alone image step follows any step of a video |
| Steps.EmitEpochs | vc/service/generation.py:340-347 | the epoch loop yields its numbered steps and advances both counters by their count |
| Steps.EmitStylePass | vc/service/generation.py:339-347 | one more style pass extends the block by that style's epochs |
| Steps.EmitText | vc/service/generation.py:338-355 | the style loop of one text yields that text's jobs, numbered, and advances both counters |
| Steps.EmitTextStep | vc/service/generation.py:337-355 | one more text extends the block by that text's jobs |
| Steps.EmitImageSpec | vc/service/generation.py:336-355 | the text loop yields all jobs of the spec, numbered |
| Steps.EmitImageGroup | vc/service/generation.py:332-355 | one image spec yields its clean step and its jobs, numbered from the counter |
| Steps.EmitFrameSpec | vc/service/generation.py:363-387 | one more spec of a video extends the frames, and the frame counter equals the frames so far |
| Steps.EmitFrames | vc/service/generation.py:362-387 | a video's specs yield its frames numbered 1.. with the frame counter |
| Steps.EmitVideo | vc/service/generation.py:358-390 | one video yields clean, frames, assembly, numbered from the counter |
| Steps.EmitImageGroupsStep | vc/service/generation.py:332-355 | one more image spec extends the image part of the stream |
| Steps.EmitImageGroups | vc/service/generation.py:331-355 | the image loop yields every image group, numbered from 1 |
| Steps.EmitVideoGroupsStep | vc/service/generation.py:358-390 | one more video extends the video part of the stream |
| Steps.EmitVideoGroups | vc/service/generation.py:357-390 | the video loop continues the same counter after the images |
| Steps.IterateStepsLoop | vc/service/generation.py:328-390 | the generator yields exactly `IterateSteps(spec)` |
| Steps.CalculateTotalSteps | vc/service/generation.py:322-326 | counting the generator's steps gives the stream's length and the closed form |
| Filenames.Replace | vc/service/generation.py:197 | `str.replace`: a string shorter than the pattern is unchanged |
| Filenames.ReplaceAbsent | vc/service/generation.py:197 | with no occurrence of the pattern the string is unchanged |
| Filenames.ReplaceAtEnd | vc/service/generation.py:197 | when the pattern's last character occurs nowhere before the end of `prefix + pat`, only the trailing occurrence is replaced: `Replace(prefix + pat, pat, sub) == prefix + sub` |
| Filenames.Pad4 | vc/service/generation.py:205 | `:04` gives at least four decimal digits |
| Filenames.FrameName | vc/service/generation.py:205 | a frame name is at least eight characters and ends in `.png` |
| Filenames.FrameNameWidth | vc/service/generation.py:205 | frame numbers below 10000 give exactly `NNNN.png` |
| Filenames.FrameNameRoundTrip | vc/service/generation.py:205 | the digits of a frame name spell its frame number back |
| Filenames.FrameNameInjective | vc/service/generation.py:204-210 | distinct frame numbers never share a frame file |
| Filenames.Join | vc/service/generation.py:207-210 | the joined path is the directory, one `/`, then the name |
| Filenames.Upscaled | vc/service/generation.py:197 | every `.png` of the output name becomes `-upscaled.png`; `UpscaledOutput` gives its value for `output.png` |
| Filenames.VideoName | vc/service/generation.py:219-220 | the run name, `-`, then the output name with every `png` replaced by `mp4`; `VideoOutput` gives its value for `output.png` |
| Filenames.InterimName | vc/service/generation.py:315-318 | every `.png` of the output name becomes `-<name>-interim.mp4`; `InterimOutput` gives its value for `output.png` |
| Filenames.UpscaledOutput | vc/service/generation.py:195-202 | the upscaled name of `output.png` is `output-upscaled.png` |
| Filenames.VideoOutput | vc/service/generation.py:218-220 | the final video of run `name` is `name-output.mp4` |
| Filenames.InterimOutput | vc/service/generation.py:314-318 | the interim video of run `name` is `output-name-interim.mp4` |
| Runner.Crossfade | vc/service/generation.py:116-134 | the first value is committed; an equal value gives the plain value and keeps the state; a different one blends and adds a tick while under 100, else commits, resets and gives the plain new value |
| Runner.StyleCrossfade | vc/service/generation.py:119-120 | a step without a style adds no style part and leaves the style state alone; otherwise the style follows the crossfade |
| Runner.CrossfadeFeaturesIncoming | vc/service/generation.py:122-134 | the prompt part always features the incoming value, a blend's weight stays below 1, and the state stays within 100 ticks |
| Runner.FeedBlends | vc/service/generation.py:123-131 | repeated calls with a new value blend with weights rising one tick per call |
| Runner.FullTransition | vc/service/generation.py:122-134 | after a commit a change of value blends for exactly 100 calls; the 101st commits, resets and gives the plain new value |
| Runner.Produces | vc/service/generation.py:164-210 | each call leaves its output file: the generator, inpainting and ISR outputs, the copy target, the video; publishing leaves none |
| Runner.StepNames | vc/service/generation.py:195-216 | the step's names: the output, its upscaled name, a frame path exactly for a truthy frame number, and `<name>-preview.png` |
| Runner.PassCalls | vc/service/generation.py:162-181 | the generator passes: an initial pass when initial iterations are set and no image exists, then the main pass; `StageCalls` and `StageCounts` state their order and number |
| Runner.FinishCalls | vc/service/generation.py:183-216 | inpainting when moving, ISR when upscaling, the frame copy inside a video, then the publish |
| Runner.StagePlan | vc/service/generation.py:162-216 | every call of one image step: the passes, then the finishing calls; `StageCalls` and `StageCounts` state what it holds |
| Runner.PlanOutputs | vc/service/generation.py:162-210 | an image step leaves the output image, the upscaled copy when upscaling and the frame file inside a video, and nothing else |
| Runner.StageCounts | vc/service/generation.py:162-216 | an image step makes two generator passes exactly when initial iterations are set and no image exists yet (else one), one inpainting iff moving, one ISR iff upscaling, one frame copy iff a truthy frame number, always one publish and no video |
| Runner.StageCalls | vc/service/generation.py:162-216 | the initial pass comes first with no seed image; the main pass is seeded whenever an image exists by then; the copy takes the final (possibly upscaled) image; the last call publishes the output file even when upscaled |
| Runner.NextPrompt | vc/service/generation.py:116-152 | the prompt has a style part exactly when the step has a style |
| Runner.NextState | vc/service/generation.py:103-152 | the runner's state after a step: an image step selects its spec, chains a new motion when the spec differs by value and advances both crossfades; other steps keep it |
| Runner.Apply | vc/service/generation.py:92-234 | one step on the world: an image step appends its call plan and adds its files, a video step its assembly request and video, a clean step removes the cleaned files |
| Runner.CleanThenInitialPass | vc/service/generation.py:162-234 | right after a clean step, an image step whose spec sets initial iterations starts with an unseeded initial pass |
| Runner.Services.Handle | vc/service/generation.py:164-224 | one service call is appended to the trace and leaves its output |
| Runner.Services.Remove | vc/service/generation.py:227-232 | `os.remove` deletes exactly that file and calls no service |
| Runner.GenerationRunner.constructor | vc/service/generation.py:69-91 | no spec, no motion and empty crossfade states at start |
| Runner.GenerationRunner.Handle | vc/service/generation.py:92-234 | dispatch by step kind: clean and video steps keep the spec, motion and crossfades, an image step updates them as `GenerateImage` does; the runner's state, the files and the calls afterwards are exactly `Apply` of those before; clean returns nothing, image the publish, video the `name-output.mp4` request |
| Runner.GenerationRunner.Select | vc/service/generation.py:104-111 | a spec unequal by value starts a new motion at its velocities, chained to the previous one; an equal spec keeps it |
| Runner.GenerationRunner.Compose | vc/service/generation.py:113-152 | the imperative crossfade returns `NextPrompt` of the old states and leaves the states `Crossfade` gives |
| Runner.GenerationRunner.RunPasses | vc/service/generation.py:162-181 | appends the passes: initial pass only when set and no image exists yet, main pass seeded iff an image exists; the output image exists afterwards |
| Runner.GenerationRunner.Finish | vc/service/generation.py:183-216 | appends inpainting, ISR, the frame copy from the image to use, and the publish of the output file, and adds the files they write |
| Runner.GenerationRunner.Render | vc/service/generation.py:162-216 | the trace grows by exactly the step's call plan, and the files by exactly what that plan writes |
| Runner.GenerationRunner.GenerateImage | vc/service/generation.py:103-216 | the new spec, motion and crossfade states, the appended call plan, the files it writes and the publish result |
| Runner.GenerationRunner.MakeVideoStep | vc/service/generation.py:218-224 | requests `<name>-` + output name with `png` replaced by `mp4`, from the steps directory |
| Runner.GenerationRunner.CleanFiles | vc/service/generation.py:226-234 | the files left are exactly the cleaned set, and no service is called |
| Runner.GenerationRunner.RemoveEntries | vc/service/generation.py:229-232 | every file directly in the steps directory is removed, and nothing else |
| Runner.Cleaned | vc/service/generation.py:226-234 | after cleaning, the output and every direct steps-directory entry are gone and every other file is kept |
| Service.Report | vc/service/generation.py:281-291 | a report carries the step's own number and the total; result and preview are the same, and present only for the video step |
| Service.InterimVideo | vc/service/generation.py:314-320 | the interim request is `output-<name>-interim.mp4` from `steps` |
| Service.Interim | vc/service/generation.py:311-320 | every twentieth step adds the interim video request and its file; other steps add nothing |
| Service.ServiceStep | vc/service/generation.py:281-298 | one pass of the service's loop: the runner's step, then the interim check |
| Service.Run | vc/service/generation.py:281-298 | the service's loop over the steps in order, each with the camera motion of its number |
| Service.RunState | vc/service/generation.py:92-152 | the runner's state after a run is the fold of `NextState` over the steps: files, calls and motion play no part |
| Service.RunExtends | vc/service/generation.py:281-298 | a run only appends to the calls made before it |
| Service.StepAssemblies | vc/service/generation.py:281-312 | one pass asks for one assembly if the step is a video step and one if its number is a multiple of 20 |
| Service.RunAssemblies | vc/service/generation.py:279-312 | over steps numbered 1, 2, …, a run asks for one assembly per video step and one per twentieth step |
| Service.GenerationService.Handle | vc/service/generation.py:265-300 | one report per step; `stepsCompleted` runs 1..N and the last equals `stepsTotal`; results only for video steps; the calls made and files left are exactly `Run` from a fresh runner over the stream; assembly requests = video steps + ⌊N/20⌋ |
| Service.GenerationService.RunSteps | vc/service/generation.py:279-298 | the loop reports every step in order, and leaves the runner's state, the files and the calls exactly as `Run` gives them |
| Service.GenerationService.HandleStep | vc/service/generation.py:281-298 | one pass reports the step and leaves the runner's state, the files and the calls exactly as `ServiceStep` gives them |
| Service.GenerationService.HandleInterim | vc/service/generation.py:302-312 | an interim video is requested, and its file added, iff the step number is a multiple of 20; otherwise nothing changes |
| Service.GenerationService.MakeInterimVideo | vc/service/generation.py:314-320 | appends the interim video request and adds its file |
| Dispatch.Decode | vc/service/queue.py:27-31 | decoding a value consumes at least one token |
| Dispatch.Encode | vc/service/queue.py:19-24 | the wire form of a value: at least one token, a prefix stream with element counts; `DecodeEncode` inverts it |
| Dispatch.DecodeEncode | vc/service/queue.py:19-31 | decoding reads back exactly the encoded value and leaves what follows |
| Dispatch.ParseEncode | vc/service/queue.py:19-31 | a whole encoded document parses back to its value |
| Dispatch.Parse | vc/service/queue.py:27-31 | a document is accepted only when one value consumes all of it |
| Dispatch.LastDot | vc/service/queue.py:18 | the index found holds a dot with none after it; none iff there is no dot |
| Dispatch.RSplit | vc/service/queue.py:18 | `rsplit('.', 1)` unpacks iff there is a dot; `class + "." + method` is the name and the method has no dot |
| Dispatch.Components | vc/service/queue.py:46 | `split('.')` gives at least one component, none with a dot |
| Dispatch.ComponentsJoin | vc/service/queue.py:46 | joining the components with dots gives the name back |
| Dispatch.Walk | vc/service/queue.py:48-49 | walking no attributes gives the start; a missing first attribute is an unresolvable-name error, and every error is one |
| Dispatch.WalkSnoc | vc/service/queue.py:48-49 | one more component is one more attribute lookup after the walk so far: a missing attribute at any depth is an unresolvable-name error, and an earlier error is kept |
| Dispatch.Resolve | vc/service/queue.py:45-50 | an unknown first module fails; a dotless name resolves iff it is a known module |
| Dispatch.ResolveAttribute | vc/service/queue.py:45-50 | `m.a` resolves to attribute `a` of module `m`, else an unresolvable-name error |
| Dispatch.HandleImport | vc/service/queue.py:45-50 | the import loop returns exactly `Resolve` |
| Dispatch.Record | vc/service/queue.py:19-24 | the written record has four elements |
| Dispatch.Dumps | vc/service/queue.py:16-24 | fails iff the function name has no dot; otherwise writes `[method, class_name, args, kwargs]` for a split that rebuilds the name |
| Dispatch.Keys | vc/service/queue.py:27-31 | the keys of a decoded object: at most one per member, each a member's key |
| Dispatch.KeysDistinct | vc/service/queue.py:27-31 | without repeated keys, the keys are the members' keys in order |
| Dispatch.Unpack4 | vc/service/queue.py:27 | the four-name unpack succeeds exactly for a 4-item list (its items), an object with 4 keys (its keys) or a 4-character string (its characters) |
| Dispatch.Loads | vc/service/queue.py:26-42 | an unparsable document or a value that does not unpack into four names is malformed; otherwise the class named by the second name resolves and the method name and arguments are the other three, or the load fails as malformed or unresolvable |
| Dispatch.LoadsObject | vc/service/queue.py:26-42 | an object with four distinct keys loads as its keys, the second naming the class |
| Dispatch.LoadsString | vc/service/queue.py:26-42 | a four-character string loads as its characters, the second naming the class |
| Dispatch.LoadsDumps | vc/service/queue.py:16-42 | a dumped job loads with the same method and arguments and the injector's instance of the resolved class, or an unresolvable-name error |
| Dispatch.DumpsIgnoresInstance | vc/service/queue.py:17 | the instance slot never reaches the output |
| Dispatch.Queue.EnqueueCall | vc/service/queue.py:73-78 | the queue records the call with its timeout |
| Dispatch.QueueService.constructor | vc/service/queue.py:68-70 | no queue and no worker at start |
| Dispatch.QueueService.GetQueue | vc/service/queue.py:92-95 | creates the queue on the first call only; returns the cached one afterwards |
| Dispatch.QueueService.GetWorker | vc/service/queue.py:80-90 | creates the worker on the first call only, over exactly the cached queue |
| Dispatch.QueueService.Enqueue | vc/service/queue.py:62-78 | appends the call with the fixed timeout `7d` to the (possibly new) cached queue |

## Left out

- `Translate` (`vc/service/helper/acceleration`) is not part of this model. Its velocity and position arithmetic is floating point. `move()` and the shift it reports come in as a `Motion` parameter. The runner records the chain of translations it builds: velocity, then previous.
- The float text of the blend weights (`1 - t` and `t`) is not modelled. A blend is a structured value with an integer tick count, and the prompt is a structured `Prompt` rather than the `' | '`-joined string.
- The services (VQGAN-CLIP, inpainting, ISR, video, file store) and `shutil.copy` become entries in a call trace. The model assumes each call leaves its output file behind; that is what makes the main pass seeded after an initial pass.
- Filesystem:
  - the filesystem is a set of regular-file paths;
  - `os.listdir` of the steps directory is the set of paths directly inside it;
  - subdirectories, the `isfile` filter on directory entries, and failures of `os.remove` are not modelled;
  - `os.listdir` raises when the steps directory does not exist; the model's clean step never fails.
- `os.path.join` is modelled only for a bare file name joined to a directory.
- Nondeterminism and logging:
  - `RandomWord.get()` becomes the run name, a parameter;
  - `datetime.now()` passed to the file store is left out;
  - `time()`, `timedelta`, `print`, `dh.debug`/`diagnose` and the rounded percentage in `handle_interim` are left out.
- The callback becomes the returned sequence of `Progress` reports.
- rq and flask_rq:
  - `DiagnosingWorker`, `get_connection`, and how rq stores and runs jobs are not modelled;
  - a queue records its enqueued calls;
  - a worker records its queues and serializer.
- JSON text and UTF-8:
  - `json.dumps`/`json.loads` with `.encode`/`.decode('utf-8')` are modelled by a token stream with a proved round trip;
  - floats in JSON are not modelled.
- `__import__` and `getattr` become a registry of modules and attributes. The injector's `get` is modelled as giving the injector's instance of the resolved class, one value per class; the scope of the class's binding is not modelled.
- `VideoSpec.steps` is a sequence. A `None` there, which the source's `if video.steps:` would also skip, is not representable.
- Some loops have their body, or a stage, in a helper method of its own: `Steps.Emit*Step`, `Steps.EmitStylePass`, `Runner.GenerationRunner.Select`/`Render`/`RemoveEntries` and `Service.GenerationService.RunSteps`/`HandleStep`. This keeps each proof small. The helpers follow the source's statements in order.
