/** The generation request value objects: plain records with defaults.
    Dafny datatype equality is structural, which is exactly the field-wise
    `==` that `@dataclass` generates; the runner's spec-change check relies
    on it. */
module Specs {
  import opened Wrappers

  /** One still image (or one stretch of video frames): the prompts to cycle
      through and the generator settings. `None` lists are the dataclass
      defaults; velocities are floats in the source and reals here. */
  datatype ImageSpec = ImageSpec(
    texts: Option<seq<string>> := None,
    styles: Option<seq<string>> := None,
    iterations: int := 75,
    initIterations: int := 200,
    epochs: int := 25,
    xVelocity: real := 0.0,
    yVelocity: real := 0.0,
    zVelocity: real := 0.0,
    upscale: bool := false)

  /** A video: the image specs whose frames it strings together. `steps` is a
      required field. */
  datatype VideoSpec = VideoSpec(steps: seq<ImageSpec>)

  /** The whole request; both collections default to `None`. */
  datatype GenerationSpec = GenerationSpec(
    images: Option<seq<ImageSpec>> := None,
    videos: Option<seq<VideoSpec>> := None)

  /** Python truthiness of an optional list: `None` and `[]` are both empty. */
  function Items<T>(o: Option<seq<T>>): (r: seq<T>)
    ensures o.None? ==> r == []
    ensures o.Some? ==> r == o.value
  {
    match o
    case None => []
    case Some(xs) => xs
  }

  /** `range(epochs)` yields nothing for a negative count. */
  function Epochs(s: ImageSpec): (n: nat)
    ensures s.epochs >= 0 ==> n == s.epochs
    ensures s.epochs < 0 ==> n == 0
  {
    if s.epochs < 0 then 0 else s.epochs
  }

  /** The defaults that the request API's schema fills in: the same numbers
      as the dataclass, but empty lists instead of `None` for texts and
      styles. */
  function SchemaDefault(): (s: ImageSpec)
    ensures s.texts == Some([]) && s.styles == Some([])
    ensures s.iterations == 75 && s.initIterations == 200 && s.epochs == 25
    ensures s.xVelocity == 0.0 && s.yVelocity == 0.0 && s.zVelocity == 0.0
    ensures !s.upscale
  {
    ImageSpec(texts := Some([]), styles := Some([]))
  }

  /** The dataclass defaults, as the constructor with no arguments gives them. */
  lemma DataclassDefaults()
    ensures ImageSpec().texts.None? && ImageSpec().styles.None?
    ensures ImageSpec().iterations == 75 && ImageSpec().initIterations == 200
    ensures ImageSpec().epochs == 25 && !ImageSpec().upscale
    ensures ImageSpec().xVelocity == 0.0 && ImageSpec().yVelocity == 0.0
    ensures ImageSpec().zVelocity == 0.0
    ensures GenerationSpec().images.None? && GenerationSpec().videos.None?
  {
  }

  /** The schema default and the dataclass default differ only in how the
      empty lists are spelled, and the two spellings read the same. */
  lemma SchemaDefaultMirrorsDataclass()
    ensures SchemaDefault() == ImageSpec().(texts := Some([]), styles := Some([]))
    ensures SchemaDefault() != ImageSpec()
    ensures Items(SchemaDefault().texts) == Items(ImageSpec().texts) == []
    ensures Items(SchemaDefault().styles) == Items(ImageSpec().styles) == []
  {
  }
}
