/** The step sequencer: a generation request becomes a deterministic stream
    of numbered steps. Image groups come first, then videos; inside each
    image spec the nesting is texts, then styles, then epochs. One counter
    numbers every step of the stream from 1; each video numbers its own
    frames from 1 as well.

    The stream is described in two layers: `Entries` lists the steps in
    order without their numbers, and `Number` stamps the counter on them.
    `IterateSteps` is the stream as a value, `IterateStepsLoop` is the
    generator's counter loop, proved to produce exactly that value. */
module Steps {
  import opened Wrappers
  import opened Specs

  datatype Step =
    | CleanFiles(step: nat)
    | ImageGeneration(step: nat, spec: ImageSpec, text: string,
                      style: Option<string>, videoStep: Option<nat>)
    | VideoGeneration(step: nat)

  /** What one image step renders: the spec with one text and one style. */
  datatype Job = Job(spec: ImageSpec, text: string, style: Option<string>)

  /** A step before the step counter is stamped on it. */
  datatype Entry =
    | Clean
    | Render(job: Job, videoStep: Option<nat>)
    | Assemble

  /** A step that belongs to a video: a frame or the assembly step. */
  predicate InVideo(st: Step) {
    st.VideoGeneration? || (st.ImageGeneration? && st.videoStep.Some?)
  }

  /** An image step of a stand-alone image group. */
  predicate InImageGroup(st: Step) {
    st.ImageGeneration? && st.videoStep.None?
  }

  /** Entry-level counterparts of `InVideo` and `InImageGroup`. */
  predicate Framed(e: Entry) {
    e.Assemble? || (e.Render? && e.videoStep.Some?)
  }

  predicate Standalone(e: Entry) {
    e.Render? && e.videoStep.None?
  }

  /** Stamp step number `n` on an entry. */
  function Stamp(e: Entry, n: nat): (st: Step)
    ensures st.step == n
    ensures e.Clean? <==> st.CleanFiles?
    ensures e.Assemble? <==> st.VideoGeneration?
    ensures e.Render? ==> st == ImageGeneration(n, e.job.spec, e.job.text, e.job.style, e.videoStep)
    ensures InVideo(st) <==> Framed(e)
    ensures InImageGroup(st) <==> Standalone(e)
  {
    match e
    case Clean => CleanFiles(n)
    case Render(job, v) => ImageGeneration(n, job.spec, job.text, job.style, v)
    case Assemble => VideoGeneration(n)
  }

  /** The counter: the entries numbered `start + 1`, `start + 2`, ... */
  function Number(es: seq<Entry>, start: nat): (r: seq<Step>)
    ensures |r| == |es|
  {
    seq(|es|, i requires 0 <= i < |es| => Stamp(es[i], start + i + 1))
  }

  function Repeat<T>(x: T, n: nat): (r: seq<T>)
    ensures |r| == n
    ensures forall i :: 0 <= i < n ==> r[i] == x
  {
    seq(n, _ => x)
  }

  /** How many style passes each text gets: one per style, or a single
      style-less pass when the styles are `None` or empty. */
  function StyleFactor(s: ImageSpec): (k: nat)
    ensures k >= 1
    ensures Items(s.styles) != [] ==> k == |Items(s.styles)|
  {
    if Items(s.styles) != [] then |Items(s.styles)| else 1
  }

  /** The style of the `k`-th style pass. */
  function StyleChoice(s: ImageSpec, k: nat): Option<string>
    requires k < StyleFactor(s)
  {
    if Items(s.styles) != [] then Some(Items(s.styles)[k]) else None
  }

  // ---------------------------------------------------------------------
  // The jobs of one image spec: texts x styles x epochs.
  // The recursive functions below take a count `n` and describe the first
  // `n` elements of a list, which is what the generator's loops have done
  // after `n` rounds.

  /** One text of `s` under the first `n` styles, each repeated `e` times. */
  function StyleJobs(s: ImageSpec, text: string, n: nat): seq<Job>
    requires n <= StyleFactor(s)
  {
    if n == 0 then []
    else StyleJobs(s, text, n - 1) + Repeat(Job(s, text, StyleChoice(s, n - 1)), Epochs(s))
  }

  /** All jobs of one text of `s`. */
  function TextJobs(s: ImageSpec, text: string): seq<Job> {
    StyleJobs(s, text, StyleFactor(s))
  }

  /** The jobs of the first `n` texts, text after text. */
  function TextsJobs(s: ImageSpec, texts: seq<string>, n: nat): seq<Job>
    requires n <= |texts|
  {
    if n == 0 then []
    else TextsJobs(s, texts, n - 1) + TextJobs(s, texts[n - 1])
  }

  /** All jobs of `s`, in generation order. */
  function Jobs(s: ImageSpec): seq<Job> {
    TextsJobs(s, Items(s.texts), |Items(s.texts)|)
  }

  /** The jobs of the first `n` specs, spec after spec. */
  function SpecsJobs(specs: seq<ImageSpec>, n: nat): seq<Job>
    requires n <= |specs|
  {
    if n == 0 then [] else SpecsJobs(specs, n - 1) + Jobs(specs[n - 1])
  }

  /** The number of image steps each text of `s` contributes. */
  function Block(s: ImageSpec): nat {
    Times(StyleFactor(s), Epochs(s))
  }

  /** The closed-form number of image steps of one image spec. */
  function PickCount(s: ImageSpec): nat {
    Times(|Items(s.texts)|, Block(s))
  }

  // ---------------------------------------------------------------------
  // The stream, unnumbered

  function Advance(v: Option<nat>, k: nat): Option<nat> {
    match v
    case None => None
    case Some(n) => Some(n + k)
  }

  /** Image entries for `jobs`; inside a video, `video` is the last frame
      number used so far, outside one it is `None`. */
  function Renders(jobs: seq<Job>, video: Option<nat>): (r: seq<Entry>)
    ensures |r| == |jobs|
  {
    seq(|jobs|, i requires 0 <= i < |jobs| => Render(jobs[i], Advance(video, i + 1)))
  }

  /** A stand-alone image group: a clean step, then the spec's images. */
  function ImageGroup(s: ImageSpec): seq<Entry> {
    [Clean] + Renders(Jobs(s), None)
  }

  /** A video: a clean step, the frames of all its specs numbered from 1,
      and one assembly step. */
  function VideoGroup(v: VideoSpec): seq<Entry> {
    [Clean] + Renders(SpecsJobs(v.steps, |v.steps|), Some(0)) + [Assemble]
  }

  /** The groups of the first `n` image specs. */
  function ImageGroups(images: seq<ImageSpec>, n: nat): seq<Entry>
    requires n <= |images|
  {
    if n == 0 then [] else ImageGroups(images, n - 1) + ImageGroup(images[n - 1])
  }

  /** The groups of the first `n` videos. */
  function VideoGroups(videos: seq<VideoSpec>, n: nat): seq<Entry>
    requires n <= |videos|
  {
    if n == 0 then [] else VideoGroups(videos, n - 1) + VideoGroup(videos[n - 1])
  }

  /** The whole stream of a request, before numbering. */
  function Entries(spec: GenerationSpec): seq<Entry> {
    var images := Items(spec.images);
    var videos := Items(spec.videos);
    ImageGroups(images, |images|) + VideoGroups(videos, |videos|)
  }

  /** The whole stream of a request. */
  function IterateSteps(spec: GenerationSpec): seq<Step> {
    Number(Entries(spec), 0)
  }

  // ---------------------------------------------------------------------
  // Arithmetic used by the counting and ordering proofs

  /** `n` blocks of `m`, counted block by block; it keeps the counting
      proofs in linear arithmetic (`TimesIsProduct` connects it to `*`). */
  function Times(n: nat, m: nat): nat {
    if n == 0 then 0 else Times(n - 1, m) + m
  }

  lemma {:induction false} TimesIsProduct(n: nat, m: nat)
    ensures Times(n, m) == n * m
  {
    if n > 0 {
      TimesIsProduct(n - 1, m);
    }
  }

  lemma MulAssoc(a: int, b: int, c: int)
    ensures a * (b * c) == a * b * c
  {
  }

  lemma {:induction false} TimesMono(a: nat, c: nat, m: nat)
    requires a <= c
    ensures Times(a, m) <= Times(c, m)
  {
    if a < c {
      TimesMono(a, c - 1, m);
    }
  }

  /** Position `Times(k, m) + j` of `n` blocks of size `m` lies in block `k`. */
  lemma BlockIndex(n: nat, m: nat, k: nat, j: nat)
    requires k < n && j < m
    ensures Times(k, m) + j < Times(n, m)
    ensures k < n - 1 ==> Times(k, m) + j < Times(n - 1, m)
  {
    TimesMono(k + 1, n, m);
    if k < n - 1 {
      TimesMono(k + 1, n - 1, m);
    }
  }

  // ---------------------------------------------------------------------
  // Closed-form counts

  lemma {:induction false} StyleJobsLength(s: ImageSpec, text: string, n: nat)
    requires n <= StyleFactor(s)
    ensures |StyleJobs(s, text, n)| == Times(n, Epochs(s))
  {
    if n > 0 {
      StyleJobsLength(s, text, n - 1);
    }
  }

  lemma TextJobsLength(s: ImageSpec, text: string)
    ensures |TextJobs(s, text)| == Block(s)
  {
    StyleJobsLength(s, text, StyleFactor(s));
  }

  lemma {:induction false} TextsJobsLength(s: ImageSpec, texts: seq<string>, n: nat)
    requires n <= |texts|
    ensures |TextsJobs(s, texts, n)| == Times(n, Block(s))
  {
    if n > 0 {
      TextsJobsLength(s, texts, n - 1);
      TextJobsLength(s, texts[n - 1]);
    }
  }

  /** Each image spec yields |texts| x (|styles|, or 1 without styles) x
      max(0, epochs) image steps. */
  lemma JobsCount(s: ImageSpec)
    ensures |Jobs(s)| == PickCount(s)
    ensures PickCount(s) == |Items(s.texts)| * StyleFactor(s) * Epochs(s)
  {
    var n, f, e := |Items(s.texts)|, StyleFactor(s), Epochs(s);
    TextsJobsLength(s, Items(s.texts), n);
    TimesIsProduct(f, e);
    TimesIsProduct(n, Block(s));
    MulAssoc(n, f, e);
  }

  /** `None` or empty texts leave an image group with its clean step only. */
  lemma NoTextsOnlyClean(s: ImageSpec)
    requires Items(s.texts) == []
    ensures ImageGroup(s) == [Clean]
  {
    assert Jobs(s) == [];
  }

  function FramesTotal(specs: seq<ImageSpec>, n: nat): nat
    requires n <= |specs|
  {
    if n == 0 then 0 else FramesTotal(specs, n - 1) + PickCount(specs[n - 1])
  }

  function ImagesTotal(images: seq<ImageSpec>, n: nat): nat
    requires n <= |images|
  {
    if n == 0 then 0 else ImagesTotal(images, n - 1) + 1 + PickCount(images[n - 1])
  }

  function VideosTotal(videos: seq<VideoSpec>, n: nat): nat
    requires n <= |videos|
  {
    if n == 0 then 0
    else VideosTotal(videos, n - 1) + 2 + FramesTotal(videos[n - 1].steps, |videos[n - 1].steps|)
  }

  /** The number of steps a request produces, by arithmetic alone. */
  function TotalSteps(spec: GenerationSpec): nat {
    ImagesTotal(Items(spec.images), |Items(spec.images)|)
    + VideosTotal(Items(spec.videos), |Items(spec.videos)|)
  }

  lemma {:induction false} SpecsJobsCount(specs: seq<ImageSpec>, n: nat)
    requires n <= |specs|
    ensures |SpecsJobs(specs, n)| == FramesTotal(specs, n)
  {
    if n > 0 {
      SpecsJobsCount(specs, n - 1);
      JobsCount(specs[n - 1]);
    }
  }

  lemma {:induction false} ImageGroupsCount(images: seq<ImageSpec>, n: nat)
    requires n <= |images|
    ensures |ImageGroups(images, n)| == ImagesTotal(images, n)
  {
    if n > 0 {
      ImageGroupsCount(images, n - 1);
      JobsCount(images[n - 1]);
    }
  }

  lemma {:induction false} VideoGroupsCount(videos: seq<VideoSpec>, n: nat)
    requires n <= |videos|
    ensures |VideoGroups(videos, n)| == VideosTotal(videos, n)
  {
    if n > 0 {
      VideoGroupsCount(videos, n - 1);
      SpecsJobsCount(videos[n - 1].steps, |videos[n - 1].steps|);
    }
  }

  /** The stream's length has the closed form: each image group is 1 plus
      its image steps, each video 2 plus its frames. */
  lemma StepCount(spec: GenerationSpec)
    ensures |IterateSteps(spec)| == TotalSteps(spec)
  {
    ImageGroupsCount(Items(spec.images), |Items(spec.images)|);
    VideoGroupsCount(Items(spec.videos), |Items(spec.videos)|);
  }

  // ---------------------------------------------------------------------
  // Order: texts, then styles, then epochs

  lemma {:induction false} StyleJobsAt(s: ImageSpec, text: string, n: nat, k: nat, j: nat)
    requires n <= StyleFactor(s) && k < n && j < Epochs(s)
    ensures Times(k, Epochs(s)) + j < |StyleJobs(s, text, n)|
    ensures StyleJobs(s, text, n)[Times(k, Epochs(s)) + j] == Job(s, text, StyleChoice(s, k))
  {
    if k < n - 1 {
      StyleJobsAt(s, text, n - 1, k, j);
    } else {
      StyleJobsLength(s, text, n - 1);
    }
  }

  lemma {:induction false} TextsJobsAt(s: ImageSpec, texts: seq<string>, n: nat, t: nat, j: nat)
    requires n <= |texts| && t < n && j < Block(s)
    ensures j < |TextJobs(s, texts[t])|
    ensures Times(t, Block(s)) + j < |TextsJobs(s, texts, n)|
    ensures TextsJobs(s, texts, n)[Times(t, Block(s)) + j] == TextJobs(s, texts[t])[j]
  {
    TextJobsLength(s, texts[t]);
    if t < n - 1 {
      TextsJobsAt(s, texts, n - 1, t, j);
    } else {
      TextsJobsLength(s, texts, n - 1);
    }
  }

  /** Text number t, style pass number k and epoch number e of a spec give
      its image step number t * B + k * E + e, where E = max(0, epochs) and
      B = E times the number of style passes: texts vary slowest, epochs
      fastest. Without styles every step carries style `None`. */
  lemma JobsAt(s: ImageSpec, t: nat, k: nat, e: nat)
    requires t < |Items(s.texts)| && k < StyleFactor(s) && e < Epochs(s)
    ensures t * Block(s) + k * Epochs(s) + e < |Jobs(s)|
    ensures Jobs(s)[t * Block(s) + k * Epochs(s) + e] == Job(s, Items(s.texts)[t], StyleChoice(s, k))
  {
    var texts := Items(s.texts);
    BlockIndex(StyleFactor(s), Epochs(s), k, e);
    TextsJobsAt(s, texts, |texts|, t, Times(k, Epochs(s)) + e);
    StyleJobsAt(s, texts[t], StyleFactor(s), k, e);
    TimesIsProduct(t, Block(s));
    TimesIsProduct(k, Epochs(s));
  }

  // ---------------------------------------------------------------------
  // Structure of the stream

  /** An image group is one clean step followed by the spec's jobs, in
      order, as image steps without a frame number. */
  lemma ImageGroupShape(s: ImageSpec)
    ensures |ImageGroup(s)| == 1 + PickCount(s)
    ensures ImageGroup(s)[0] == Clean
    ensures forall i :: 1 <= i < |ImageGroup(s)| ==> ImageGroup(s)[i] == Render(Jobs(s)[i - 1], None)
  {
    JobsCount(s);
  }

  /** A video is one clean step, its frames numbered 1, 2, ... (the frame
      counter restarts with every video), and one assembly step at the end. */
  lemma VideoGroupShape(v: VideoSpec)
    ensures |VideoGroup(v)| == 2 + FramesTotal(v.steps, |v.steps|)
    ensures VideoGroup(v)[0] == Clean
    ensures VideoGroup(v)[|VideoGroup(v)| - 1] == Assemble
    ensures forall i :: 1 <= i < |VideoGroup(v)| - 1 ==>
      VideoGroup(v)[i] == Render(SpecsJobs(v.steps, |v.steps|)[i - 1], Some(i))
  {
    SpecsJobsCount(v.steps, |v.steps|);
  }

  lemma {:induction false} ImageGroupsShape(images: seq<ImageSpec>, n: nat)
    requires n <= |images|
    ensures forall e :: e in ImageGroups(images, n) ==> !Framed(e)
  {
    if n > 0 {
      ImageGroupsShape(images, n - 1);
      var group := ImageGroup(images[n - 1]);
      forall e | e in group ensures !Framed(e) {
        var i :| 0 <= i < |group| && group[i] == e;
      }
    }
  }

  lemma {:induction false} VideoGroupsShape(videos: seq<VideoSpec>, n: nat)
    requires n <= |videos|
    ensures forall e :: e in VideoGroups(videos, n) ==> !Standalone(e)
  {
    if n > 0 {
      VideoGroupsShape(videos, n - 1);
      var group := VideoGroup(videos[n - 1]);
      forall e | e in group ensures !Standalone(e) {
        var i :| 0 <= i < |group| && group[i] == e;
      }
    }
  }

  /** One counter numbers the whole stream 1..N, never reset. */
  lemma StepIndices(spec: GenerationSpec)
    ensures forall i :: 0 <= i < |IterateSteps(spec)| ==> IterateSteps(spec)[i].step == i + 1
  {
  }

  /** Every image group precedes every video: no stand-alone image step
      follows a step of a video. */
  lemma ImagesBeforeVideos(spec: GenerationSpec, i: nat, j: nat)
    requires i < j < |IterateSteps(spec)|
    requires InVideo(IterateSteps(spec)[i])
    ensures !InImageGroup(IterateSteps(spec)[j])
  {
    var imageSpecs := Items(spec.images);
    var videoSpecs := Items(spec.videos);
    var images := ImageGroups(imageSpecs, |imageSpecs|);
    var videos := VideoGroups(videoSpecs, |videoSpecs|);
    var es := Entries(spec);
    ImageGroupsShape(imageSpecs, |imageSpecs|);
    VideoGroupsShape(videoSpecs, |videoSpecs|);
    assert Framed(es[i]);
    assert es[i] !in images;
    assert es[j] in videos;
  }

  // ---------------------------------------------------------------------
  // The generator: the source's counter loops

  lemma NumberAppend(a: seq<Entry>, b: seq<Entry>, start: nat)
    ensures Number(a + b, start) == Number(a, start) + Number(b, start + |a|)
  {
    var lhs := Number(a + b, start);
    var rhs := Number(a, start) + Number(b, start + |a|);
    forall i | 0 <= i < |lhs| ensures lhs[i] == rhs[i] {
      if i >= |a| {
        assert (a + b)[i] == b[i - |a|];
      }
    }
  }

  lemma RendersAppend(a: seq<Job>, b: seq<Job>, video: Option<nat>)
    ensures Renders(a + b, video) == Renders(a, video) + Renders(b, Advance(video, |a|))
  {
    var lhs := Renders(a + b, video);
    var rhs := Renders(a, video) + Renders(b, Advance(video, |a|));
    forall i | 0 <= i < |lhs| ensures lhs[i] == rhs[i] {
      if i >= |a| {
        assert Advance(Advance(video, |a|), i - |a| + 1) == Advance(video, i + 1);
      }
    }
  }

  /** Numbered image steps for `a + b` continue those for `a` in both
      counters. */
  lemma NumberedRendersAppend(a: seq<Job>, b: seq<Job>, step: nat, video: Option<nat>)
    ensures Number(Renders(a + b, video), step)
         == Number(Renders(a, video), step) + Number(Renders(b, Advance(video, |a|)), step + |a|)
  {
    RendersAppend(a, b, video);
    NumberAppend(Renders(a, video), Renders(b, Advance(video, |a|)), step);
  }

  lemma FramesSnoc(specs: seq<ImageSpec>, j: nat, step: nat)
    requires j < |specs|
    ensures Number(Renders(SpecsJobs(specs, j + 1), Some(0)), step)
         == Number(Renders(SpecsJobs(specs, j), Some(0)), step)
            + Number(Renders(Jobs(specs[j]), Some(|SpecsJobs(specs, j)|)), step + |SpecsJobs(specs, j)|)
  {
    NumberedRendersAppend(SpecsJobs(specs, j), Jobs(specs[j]), step, Some(0));
  }

  lemma VideoGroupNumbered(v: VideoSpec, step: nat)
    ensures Number(VideoGroup(v), step)
         == [CleanFiles(step + 1)]
            + Number(Renders(SpecsJobs(v.steps, |v.steps|), Some(0)), step + 1)
            + [VideoGeneration(step + 1 + |SpecsJobs(v.steps, |v.steps|)| + 1)]
  {
    var body := Renders(SpecsJobs(v.steps, |v.steps|), Some(0));
    NumberAppend([Clean], body, step);
    NumberAppend([Clean] + body, [Assemble], step);
  }

  lemma ImageGroupsSnoc(images: seq<ImageSpec>, g: nat)
    requires g < |images|
    ensures Number(ImageGroups(images, g + 1), 0)
         == Number(ImageGroups(images, g), 0) + Number(ImageGroup(images[g]), |ImageGroups(images, g)|)
  {
    NumberAppend(ImageGroups(images, g), ImageGroup(images[g]), 0);
  }

  lemma VideoGroupsSnoc(videos: seq<VideoSpec>, w: nat, start: nat)
    requires w < |videos|
    ensures Number(VideoGroups(videos, w + 1), start)
         == Number(VideoGroups(videos, w), start)
            + Number(VideoGroup(videos[w]), start + |VideoGroups(videos, w)|)
  {
    NumberAppend(VideoGroups(videos, w), VideoGroup(videos[w]), start);
  }

  /** `for i in range(epochs)`: one image step per epoch, both counters
      advanced before each. */
  method EmitEpochs(s: ImageSpec, text: string, style: Option<string>, step: nat, video: Option<nat>)
    returns (block: seq<Step>, next: nat, nextVideo: Option<nat>)
    ensures block == Number(Renders(Repeat(Job(s, text, style), Epochs(s)), video), step)
    ensures next == step + |block| && nextVideo == Advance(video, |block|)
  {
    block, next, nextVideo := [], step, video;
    ghost var job := Job(s, text, style);
    var i := 0;
    while i < s.epochs
      invariant 0 <= i <= Epochs(s)
      invariant block == Number(Renders(Repeat(job, i), video), step)
      invariant next == step + i && nextVideo == Advance(video, i)
    {
      nextVideo := Advance(nextVideo, 1);
      next := next + 1;
      block := block + [ImageGeneration(next, s, text, style, nextVideo)];
      NumberedRendersAppend(Repeat(job, i), [job], step, video);
      assert Repeat(job, i) + [job] == Repeat(job, i + 1);
      i := i + 1;
    }
  }

  /** One text: every style in turn, or a single style-less pass. */
  method EmitText(s: ImageSpec, text: string, step: nat, video: Option<nat>)
    returns (block: seq<Step>, next: nat, nextVideo: Option<nat>)
    ensures block == Number(Renders(TextJobs(s, text), video), step)
    ensures next == step + |block| && nextVideo == Advance(video, |block|)
  {
    var styles := Items(s.styles);
    if styles != [] {
      block, next, nextVideo := [], step, video;
      var k := 0;
      while k < |styles|
        invariant 0 <= k <= |styles|
        invariant block == Number(Renders(StyleJobs(s, text, k), video), step)
        invariant next == step + |block| && nextVideo == Advance(video, |block|)
      {
        block, next, nextVideo := EmitStylePass(s, text, k, step, video, block, next, nextVideo);
        k := k + 1;
      }
    } else {
      block, next, nextVideo := EmitEpochs(s, text, None, step, video);
      assert StyleJobs(s, text, 1) == [] + Repeat(Job(s, text, None), Epochs(s));
    }
  }

  /** One style of a text with styles: its epochs continue both counters. */
  method EmitStylePass(s: ImageSpec, text: string, k: nat, step: nat, video: Option<nat>,
                       block: seq<Step>, next: nat, nextVideo: Option<nat>)
    returns (block': seq<Step>, next': nat, nextVideo': Option<nat>)
    requires k < |Items(s.styles)|
    requires block == Number(Renders(StyleJobs(s, text, k), video), step)
    requires next == step + |block| && nextVideo == Advance(video, |block|)
    ensures block' == Number(Renders(StyleJobs(s, text, k + 1), video), step)
    ensures next' == step + |block'| && nextVideo' == Advance(video, |block'|)
  {
    var style := Items(s.styles)[k];
    var more;
    more, next', nextVideo' := EmitEpochs(s, text, Some(style), next, nextVideo);
    NumberedRendersAppend(StyleJobs(s, text, k), Repeat(Job(s, text, Some(style)), Epochs(s)), step, video);
    block' := block + more;
  }

  /** The text/style/epoch loops over one image spec. The caller's step
      counter continues in `next`, its frame counter (inside a video) in
      `nextVideo`. */
  method EmitImageSpec(s: ImageSpec, step: nat, video: Option<nat>)
    returns (block: seq<Step>, next: nat, nextVideo: Option<nat>)
    ensures block == Number(Renders(Jobs(s), video), step)
    ensures next == step + |block| && nextVideo == Advance(video, |block|)
  {
    block, next, nextVideo := [], step, video;
    var texts := Items(s.texts);
    var t := 0;
    while t < |texts|
      invariant 0 <= t <= |texts|
      invariant block == Number(Renders(TextsJobs(s, texts, t), video), step)
      invariant next == step + |block| && nextVideo == Advance(video, |block|)
    {
      block, next, nextVideo := EmitTextStep(s, t, step, video, block, next, nextVideo);
      t := t + 1;
    }
  }

  /** One text of an image spec: its passes continue both counters. */
  method EmitTextStep(s: ImageSpec, t: nat, step: nat, video: Option<nat>,
                      block: seq<Step>, next: nat, nextVideo: Option<nat>)
    returns (block': seq<Step>, next': nat, nextVideo': Option<nat>)
    requires t < |Items(s.texts)|
    requires block == Number(Renders(TextsJobs(s, Items(s.texts), t), video), step)
    requires next == step + |block| && nextVideo == Advance(video, |block|)
    ensures block' == Number(Renders(TextsJobs(s, Items(s.texts), t + 1), video), step)
    ensures next' == step + |block'| && nextVideo' == Advance(video, |block'|)
  {
    var texts := Items(s.texts);
    var more;
    more, next', nextVideo' := EmitText(s, texts[t], next, nextVideo);
    NumberedRendersAppend(TextsJobs(s, texts, t), TextJobs(s, texts[t]), step, video);
    block' := block + more;
  }

  /** One stand-alone image group: a clean step, then the spec's loops. */
  method EmitImageGroup(s: ImageSpec, step: nat) returns (group: seq<Step>, next: nat)
    ensures group == Number(ImageGroup(s), step)
    ensures next == step + |group|
  {
    next := step + 1;
    var block, n, _ := EmitImageSpec(s, next, None);
    group := [CleanFiles(next)] + block;
    next := n;
    NumberAppend([Clean], Renders(Jobs(s), None), step);
  }

  /** The frames of a video: the loops over every inner spec, the frame
      counter starting again from 0. */
  method EmitFrames(specs: seq<ImageSpec>, step: nat) returns (frames: seq<Step>)
    ensures frames == Number(Renders(SpecsJobs(specs, |specs|), Some(0)), step)
  {
    frames := [];
    var next := step;
    var videoStep := Some(0);
    var j := 0;
    while j < |specs|
      invariant 0 <= j <= |specs|
      invariant frames == Number(Renders(SpecsJobs(specs, j), Some(0)), step)
      invariant next == step + |frames| && videoStep == Some(|frames|)
    {
      frames, next, videoStep := EmitFrameSpec(specs, j, step, frames, next, videoStep);
      j := j + 1;
    }
  }

  /** One inner spec of a video: its loops continue both counters. */
  method EmitFrameSpec(specs: seq<ImageSpec>, j: nat, step: nat, frames: seq<Step>,
                       next: nat, videoStep: Option<nat>)
    returns (frames': seq<Step>, next': nat, videoStep': Option<nat>)
    requires j < |specs|
    requires frames == Number(Renders(SpecsJobs(specs, j), Some(0)), step)
    requires next == step + |frames| && videoStep == Some(|frames|)
    ensures frames' == Number(Renders(SpecsJobs(specs, j + 1), Some(0)), step)
    ensures next' == step + |frames'| && videoStep' == Some(|frames'|)
  {
    var block;
    block, next', videoStep' := EmitImageSpec(specs[j], next, videoStep);
    FramesSnoc(specs, j, step);
    frames' := frames + block;
  }

  /** One video: a clean step, its frames, then the assembly step. */
  method EmitVideo(video: VideoSpec, step: nat) returns (group: seq<Step>, next: nat)
    ensures group == Number(VideoGroup(video), step)
    ensures next == step + |group|
  {
    var frames := EmitFrames(video.steps, step + 1);
    next := step + 1 + |frames| + 1;
    group := [CleanFiles(step + 1)] + frames + [VideoGeneration(next)];
    VideoGroupNumbered(video, step);
  }

  /** The generator's first loop: every image spec's group, numbered from 1. */
  method EmitImageGroups(images: seq<ImageSpec>) returns (steps: seq<Step>)
    ensures steps == Number(ImageGroups(images, |images|), 0)
  {
    var step: nat := 0;
    steps := [];
    var g := 0;
    while g < |images|
      invariant 0 <= g <= |images|
      invariant steps == Number(ImageGroups(images, g), 0)
      invariant step == |steps|
    {
      steps, step := EmitImageGroupsStep(images, g, steps, step);
      g := g + 1;
    }
  }

  /** One image spec of the first loop: its group continues the counter. */
  method EmitImageGroupsStep(images: seq<ImageSpec>, g: nat, steps: seq<Step>, step: nat)
    returns (steps': seq<Step>, step': nat)
    requires g < |images|
    requires steps == Number(ImageGroups(images, g), 0) && step == |steps|
    ensures steps' == Number(ImageGroups(images, g + 1), 0) && step' == |steps'|
  {
    var group;
    group, step' := EmitImageGroup(images[g], step);
    ImageGroupsSnoc(images, g);
    steps' := steps + group;
  }

  /** The generator's second loop: every video's group, numbered on from
      `start`, the counter value the image groups left behind. */
  method EmitVideoGroups(videos: seq<VideoSpec>, start: nat) returns (steps: seq<Step>)
    ensures steps == Number(VideoGroups(videos, |videos|), start)
  {
    var step := start;
    steps := [];
    var w := 0;
    while w < |videos|
      invariant 0 <= w <= |videos|
      invariant steps == Number(VideoGroups(videos, w), start)
      invariant step == start + |steps|
    {
      steps, step := EmitVideoGroupsStep(videos, w, start, steps, step);
      w := w + 1;
    }
  }

  /** One video of the second loop: its group continues the counter. */
  method EmitVideoGroupsStep(videos: seq<VideoSpec>, w: nat, start: nat, steps: seq<Step>, step: nat)
    returns (steps': seq<Step>, step': nat)
    requires w < |videos|
    requires steps == Number(VideoGroups(videos, w), start) && step == start + |steps|
    ensures steps' == Number(VideoGroups(videos, w + 1), start) && step' == start + |steps'|
  {
    var group;
    group, step' := EmitVideo(videos[w], step);
    VideoGroupsSnoc(videos, w, start);
    steps' := steps + group;
  }

  /** The generator, as the source writes it: one step counter that is
      incremented before every step and never reset, first over the image
      specs and then over the videos. It yields exactly the stream
      `IterateSteps` describes, so running it twice yields the same stream. */
  method IterateStepsLoop(spec: GenerationSpec) returns (steps: seq<Step>)
    ensures steps == IterateSteps(spec)
  {
    var imageSpecs := Items(spec.images);
    var videoSpecs := Items(spec.videos);
    var images := EmitImageGroups(imageSpecs);
    var videos := EmitVideoGroups(videoSpecs, |images|);
    steps := images + videos;
    NumberAppend(ImageGroups(imageSpecs, |imageSpecs|), VideoGroups(videoSpecs, |videoSpecs|), 0);
  }

  /** `calculate_total_steps`: count the generator's steps by running it
      once more. */
  method CalculateTotalSteps(spec: GenerationSpec) returns (total: nat)
    ensures total == |IterateSteps(spec)|
    ensures total == TotalSteps(spec)
  {
    var steps := IterateStepsLoop(spec);
    total := 0;
    for i := 0 to |steps|
      invariant total == i
    {
      total := total + 1;
    }
    StepCount(spec);
  }
}
