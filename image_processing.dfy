/** The style-conversion engine (copyingtools/Services/ImageProcessingService.swift).

    CoreImage builds images lazily: a CIImage is a recipe, a tree of filter
    applications over a decoded source, and pixels exist only once a CIContext
    renders it. The model keeps exactly that: `CIImage` is the recipe, and what
    the foreign library does with a recipe is an oracle record, `CoreImage`,
    given to the service when it is created. Nothing here computes pixels. */
module ImageProcessing {
  import opened Wrappers
  import opened Models

  datatype ImageProcessingError = InvalidInput | ProcessingFailed
  {
    function LocalizedDescription(): string
    {
      match this
      case InvalidInput => "无效的输入图像"
      case ProcessingFailed => "图像处理失败"
    }
  }

  /** A CoreImage recipe. Each constructor is one built-in filter with the
      attributes the service sets; `input` is the filter's inputImage and
      `background` its backgroundImage. */
  datatype CIImage =
    | Decoded(source: UIImage)                                     // CIImage(image:)
    | ColorControls(input: CIImage, saturation: real, contrast: real)
    | Edges(input: CIImage, intensity: real)
    | GaussianBlur(input: CIImage, radius: real)
    | ColorInvert(input: CIImage)
    | Median(input: CIImage, radius: real)
    | ColorDodgeBlendMode(input: CIImage, background: CIImage)
    | SourceOverCompositing(input: CIImage, background: CIImage)

  /** The foreign library, as seen by the service:
      `decodes(u)`   — CIImage(image: u) is not nil;
      `hasOutput(r)` — the last filter of recipe r yields an outputImage;
      `render(r)`    — CIContext.createCGImage over r's extent, wrapped as a UIImage. */
  datatype CoreImage = CoreImage(
    decodes: UIImage -> bool,
    hasOutput: CIImage -> bool,
    render: CIImage -> Option<UIImage>)

  /** CIColorControls' defaults for the attributes a filter leaves unset. */
  const NeutralSaturation: real := 1.0
  const NeutralContrast: real := 1.0

  /** The Sketch style's blur radius, fixed whatever the line thickness. */
  const SketchBlurRadius: real := 1.0

  /** Edge-filter intensity for a line thickness: Float(lineThickness) * 0.5. */
  function EdgeIntensity(lineThickness: int): (r: real)
    ensures 1 <= lineThickness <= 5 ==> 0.5 <= r <= 2.5
    ensures r == 0.0 <==> lineThickness == 0
    ensures lineThickness < 0 <==> r < 0.0
  {
    lineThickness as real * 0.5
  }

  /** Contrast factor for a slider value: Float(contrast) / 50.0; 50 is neutral. */
  function ContrastFactor(contrast: int): (r: real)
    ensures r == NeutralContrast <==> contrast == 50
    ensures 0 <= contrast <= 100 ==> 0.0 <= r <= 2.0
    ensures contrast == 0 ==> r == 0.0
    ensures contrast == 100 ==> r == 2.0
  {
    contrast as real / 50.0
  }

  /** Saturation factor for a slider value: Float(saturation) / 50.0; 50 is neutral
      and 0 desaturates fully, like the grayscale stage. */
  function SaturationFactor(saturation: int): (r: real)
    ensures r == NeutralSaturation <==> saturation == 50
    ensures 0 <= saturation <= 100 ==> 0.0 <= r <= 2.0
    ensures saturation == 0 ==> r == 0.0
  {
    saturation as real / 50.0
  }

  /** The colour-controls stage with saturation 0 that every grayscale step uses. */
  function Grayscale(image: CIImage): CIImage
  {
    ColorControls(image, 0.0, NeutralContrast)
  }

  /** A style's fixed pipeline. After the input decodes, `checkpoints[0]` is
      emitted; then phase i runs (every recipe in `phases[i]` must have an
      output) and is followed by `checkpoints[i + 1]`, except the last phase,
      whose final recipe is rendered instead and whose completion the caller
      reports. */
  datatype Plan = Plan(checkpoints: seq<real>, phases: seq<seq<CIImage>>)

  ghost predicate WellFormed(p: Plan)
  {
    && |p.phases| >= 1
    && |p.checkpoints| == |p.phases|
    && forall i :: 0 <= i < |p.phases| ==> |p.phases[i]| >= 1
  }

  /** The progress values a style method itself emits, in order. */
  function Checkpoints(style: SketchStyle): seq<real>
  {
    match style
    case Outline => [0.2, 0.4, 0.6, 0.8]
    case Sketch => [0.3, 0.5, 0.7, 0.9]
    case Cartoon => [0.2, 0.4, 0.6, 0.8]
  }

  function OutlinePlan(source: CIImage, lineThickness: int, contrast: int): Plan
  {
    var grayImage := Grayscale(source);
    var edgeImage := Edges(grayImage, EdgeIntensity(lineThickness));
    var outputImage := ColorControls(edgeImage, NeutralSaturation, ContrastFactor(contrast));
    var finalImage := ColorInvert(outputImage);
    Plan(Checkpoints(Outline), [[grayImage], [edgeImage], [outputImage], [finalImage]])
  }

  /** The Sketch method receives the line thickness but does not use it. */
  function SketchPlan(source: CIImage, lineThickness: int, contrast: int): Plan
  {
    var grayImage := Grayscale(source);
    var blurredImage := GaussianBlur(grayImage, SketchBlurRadius);
    var invertedImage := ColorInvert(blurredImage);
    var outputImage := ColorDodgeBlendMode(invertedImage, grayImage);
    var finalImage := ColorControls(outputImage, NeutralSaturation, ContrastFactor(contrast));
    Plan(Checkpoints(Sketch), [[grayImage], [blurredImage, invertedImage], [outputImage], [finalImage]])
  }

  function CartoonPlan(source: CIImage, lineThickness: int, contrast: int, saturation: int): Plan
  {
    var smoothImage := Median(source, lineThickness as real);
    var edgeImage := Edges(source, EdgeIntensity(lineThickness));
    var invertedEdges := ColorInvert(edgeImage);
    var colorAdjustedImage := ColorControls(smoothImage, SaturationFactor(saturation), ContrastFactor(contrast));
    var finalImage := SourceOverCompositing(invertedEdges, colorAdjustedImage);
    Plan(Checkpoints(SketchStyle.Cartoon), [[smoothImage], [edgeImage, invertedEdges], [colorAdjustedImage], [finalImage]])
  }

  /** The dispatch of convertToSketch: saturation reaches only the Cartoon style. */
  function StylePlan(style: SketchStyle, source: CIImage, lineThickness: int, contrast: int, saturation: int): (p: Plan)
    ensures WellFormed(p) && |p.phases| == 4
  {
    match style
    case Outline => OutlinePlan(source, lineThickness, contrast)
    case Sketch => SketchPlan(source, lineThickness, contrast)
    case Cartoon => CartoonPlan(source, lineThickness, contrast, saturation)
  }

  /** The progress values emitted and the one result delivered. */
  datatype Trace = Trace(progress: seq<real>, result: Result<UIImage, ImageProcessingError>)

  predicate AllHaveOutput(ci: CoreImage, stage: seq<CIImage>)
  {
    forall r :: r in stage ==> ci.hasOutput(r)
  }

  function Last<T>(s: seq<T>): T
    requires |s| >= 1
  {
    s[|s| - 1]
  }

  /** Whether phase k completes: all its filters yield output and, for the last
      phase, the final recipe renders. */
  predicate PhaseCompletes(ci: CoreImage, plan: Plan, k: nat)
    requires WellFormed(plan) && k < |plan.phases|
  {
    && AllHaveOutput(ci, plan.phases[k])
    && (k == |plan.phases| - 1 ==> ci.render(Last(plan.phases[k])).Some?)
  }

  /** Runs phase i and the ones after it, emitting the checkpoint that follows
      each phase but the last, and stopping at the first phase that does not
      complete. */
  function RunPhasesFrom(ci: CoreImage, plan: Plan, i: nat): Trace
    requires WellFormed(plan) && i < |plan.phases|
    decreases |plan.phases| - i
  {
    if !AllHaveOutput(ci, plan.phases[i]) then Trace([], Failure(ProcessingFailed))
    else if i == |plan.phases| - 1 then
      match ci.render(Last(plan.phases[i]))
      case None => Trace([], Failure(ProcessingFailed))
      case Some(image) => Trace([], Success(image))
    else
      var rest := RunPhasesFrom(ci, plan, i + 1);
      Trace([plan.checkpoints[i + 1]] + rest.progress, rest.result)
  }

  /** What one style method emits and returns. */
  function StyleTrace(ci: CoreImage, image: UIImage, plan: Plan): Trace
    requires WellFormed(plan)
  {
    if !ci.decodes(image) then Trace([], Failure(InvalidInput))
    else
      var t := RunPhasesFrom(ci, plan, 0);
      Trace([plan.checkpoints[0]] + t.progress, t.result)
  }

  /** One conversion: reset the progress to 0.0, run the style, and on success
      emit 1.0. */
  function Convert(ci: CoreImage, image: UIImage, style: SketchStyle,
                   lineThickness: int, contrast: int, saturation: int): Trace
  {
    var t := StyleTrace(ci, image, StylePlan(style, Decoded(image), lineThickness, contrast, saturation));
    if t.result.Success? then Trace([0.0] + t.progress + [1.0], t.result)
    else Trace([0.0] + t.progress, t.result)
  }

  /** Every progress value one conversion can emit, in order: the reset, the
      style's checkpoints, and the completion. */
  function ProgressSchedule(style: SketchStyle): seq<real>
  {
    [0.0] + Checkpoints(style) + [1.0]
  }

  /** The plan a conversion of `image` runs. */
  function PlanFor(style: SketchStyle, image: UIImage, lineThickness: int, contrast: int, saturation: int): (p: Plan)
    ensures WellFormed(p) && |p.phases| == 4 && p.checkpoints == Checkpoints(style)
  {
    StylePlan(style, Decoded(image), lineThickness, contrast, saturation)
  }

  // ---- The phase interpreter ----

  /** From phase i on, the interpreter emits a prefix of the remaining
      checkpoints, all of them exactly when it succeeds, and it succeeds exactly
      when every remaining phase completes; the image it returns is the
      rendering of the plan's last recipe. */
  lemma {:induction false} RunPhasesOutcome(ci: CoreImage, plan: Plan, i: nat)
    requires WellFormed(plan) && i < |plan.phases|
    decreases |plan.phases| - i
    ensures var t := RunPhasesFrom(ci, plan, i);
      |t.progress| <= |plan.checkpoints| - i - 1 && t.progress == plan.checkpoints[i + 1..i + 1 + |t.progress|]
    ensures var t := RunPhasesFrom(ci, plan, i);
      t.result.Success? ==> t.progress == plan.checkpoints[i + 1..]
    ensures var t := RunPhasesFrom(ci, plan, i);
      t.result.Failure? ==> t.result.error == ProcessingFailed
    ensures var t := RunPhasesFrom(ci, plan, i);
      t.result.Success? <==> forall k :: i <= k < |plan.phases| ==> PhaseCompletes(ci, plan, k)
    ensures var t := RunPhasesFrom(ci, plan, i);
      t.result.Success? ==> Some(t.result.value) == ci.render(Last(Last(plan.phases)))
  {
    if AllHaveOutput(ci, plan.phases[i]) && i < |plan.phases| - 1 {
      RunPhasesOutcome(ci, plan, i + 1);
      var rest := RunPhasesFrom(ci, plan, i + 1);
      assert [plan.checkpoints[i + 1]] + plan.checkpoints[i + 2..i + 2 + |rest.progress|]
          == plan.checkpoints[i + 1..i + 2 + |rest.progress|];
      if rest.result.Success? {
        assert [plan.checkpoints[i + 1]] + plan.checkpoints[i + 2..] == plan.checkpoints[i + 1..];
      }
      assert PhaseCompletes(ci, plan, i);
    } else {
      assert !PhaseCompletes(ci, plan, i) <==> RunPhasesFrom(ci, plan, i).result.Failure?;
    }
  }

  /** When phase k is the first from phase i on that does not complete, the
      interpreter emits exactly the checkpoints that follow the phases before
      it, and fails. */
  lemma {:induction false} RunPhasesStopsAt(ci: CoreImage, plan: Plan, i: nat, k: nat)
    requires WellFormed(plan) && i <= k < |plan.phases|
    requires forall j :: i <= j < k ==> PhaseCompletes(ci, plan, j)
    requires !PhaseCompletes(ci, plan, k)
    decreases k - i
    ensures RunPhasesFrom(ci, plan, i) == Trace(plan.checkpoints[i + 1..k + 1], Failure(ProcessingFailed))
  {
    if i < k {
      assert PhaseCompletes(ci, plan, i);
      RunPhasesStopsAt(ci, plan, i + 1, k);
      assert [plan.checkpoints[i + 1]] + plan.checkpoints[i + 2..k + 1] == plan.checkpoints[i + 1..k + 1];
    }
  }

  /** For a four-phase plan, "every phase completes" spelled out. */
  lemma AllFourPhasesComplete(ci: CoreImage, plan: Plan)
    requires WellFormed(plan) && |plan.phases| == 4
    ensures (forall k :: 0 <= k < 4 ==> PhaseCompletes(ci, plan, k)) <==>
      (PhaseCompletes(ci, plan, 0) && PhaseCompletes(ci, plan, 1) && PhaseCompletes(ci, plan, 2) && PhaseCompletes(ci, plan, 3))
  {
  }

  /** A four-phase trace, case by case on the first phase that does not
      complete. */
  lemma FourPhaseCases(ci: CoreImage, image: UIImage, plan: Plan)
    requires WellFormed(plan) && |plan.phases| == 4
    ensures var t := StyleTrace(ci, image, plan); var cp := plan.checkpoints;
      t == if !ci.decodes(image) then Trace([], Failure(InvalidInput))
        else if !PhaseCompletes(ci, plan, 0) then Trace([cp[0]], Failure(ProcessingFailed))
        else if !PhaseCompletes(ci, plan, 1) then Trace([cp[0], cp[1]], Failure(ProcessingFailed))
        else if !PhaseCompletes(ci, plan, 2) then Trace([cp[0], cp[1], cp[2]], Failure(ProcessingFailed))
        else if !PhaseCompletes(ci, plan, 3) then Trace(cp, Failure(ProcessingFailed))
        else Trace(cp, Success(ci.render(Last(plan.phases[3])).value))
  {
    RunPhasesOutcome(ci, plan, 0);
    if !PhaseCompletes(ci, plan, 0) {
      RunPhasesStopsAt(ci, plan, 0, 0);
    } else if !PhaseCompletes(ci, plan, 1) {
      RunPhasesStopsAt(ci, plan, 0, 1);
    } else if !PhaseCompletes(ci, plan, 2) {
      RunPhasesStopsAt(ci, plan, 0, 2);
    } else if !PhaseCompletes(ci, plan, 3) {
      RunPhasesStopsAt(ci, plan, 0, 3);
    } else {
      AllFourPhasesComplete(ci, plan);
    }
  }

  // ---- Properties of one conversion ----

  lemma ConvertShape(ci: CoreImage, image: UIImage, style: SketchStyle, lineThickness: int, contrast: int, saturation: int)
    ensures var t := Convert(ci, image, style, lineThickness, contrast, saturation);
      && 1 <= |t.progress| <= |ProgressSchedule(style)|
      && t.progress == ProgressSchedule(style)[..|t.progress|]
      && (|t.progress| == |ProgressSchedule(style)| <==> t.result.Success?)
  {
    var plan := PlanFor(style, image, lineThickness, contrast, saturation);
    var schedule := ProgressSchedule(style);
    var t := Convert(ci, image, style, lineThickness, contrast, saturation);
    if ci.decodes(image) {
      RunPhasesOutcome(ci, plan, 0);
      var rest := RunPhasesFrom(ci, plan, 0);
      var n := |rest.progress|;
      assert [plan.checkpoints[0]] + rest.progress == plan.checkpoints[..n + 1];
      assert StyleTrace(ci, image, plan).progress == plan.checkpoints[..n + 1];
      if rest.result.Success? {
        assert n + 1 == |plan.checkpoints|;
        assert t.progress == [0.0] + plan.checkpoints + [1.0];
      } else {
        assert t.progress == [0.0] + plan.checkpoints[..n + 1];
        assert t.progress == schedule[..n + 2];
      }
    } else {
      assert t.progress == [0.0] == schedule[..1];
    }
  }

  /** A successful conversion emits the whole schedule of its style. */
  lemma ProgressOnSuccess(ci: CoreImage, image: UIImage, style: SketchStyle, lineThickness: int, contrast: int, saturation: int)
    ensures var t := Convert(ci, image, style, lineThickness, contrast, saturation);
      t.result.Success? ==> t.progress == ProgressSchedule(style)
    ensures var t := Convert(ci, image, Outline, lineThickness, contrast, saturation);
      t.result.Success? ==> t.progress == [0.0, 0.2, 0.4, 0.6, 0.8, 1.0]
    ensures var t := Convert(ci, image, Sketch, lineThickness, contrast, saturation);
      t.result.Success? ==> t.progress == [0.0, 0.3, 0.5, 0.7, 0.9, 1.0]
    ensures var t := Convert(ci, image, SketchStyle.Cartoon, lineThickness, contrast, saturation);
      t.result.Success? ==> t.progress == [0.0, 0.2, 0.4, 0.6, 0.8, 1.0]
  {
    ConvertShape(ci, image, style, lineThickness, contrast, saturation);
    ConvertShape(ci, image, Outline, lineThickness, contrast, saturation);
    ConvertShape(ci, image, Sketch, lineThickness, contrast, saturation);
    ConvertShape(ci, image, SketchStyle.Cartoon, lineThickness, contrast, saturation);
  }

  /** Within one conversion the emitted values strictly increase, start at the
      reset value 0.0, and include 1.0 exactly when the conversion succeeds. */
  lemma ProgressMonotone(ci: CoreImage, image: UIImage, style: SketchStyle, lineThickness: int, contrast: int, saturation: int)
    ensures var t := Convert(ci, image, style, lineThickness, contrast, saturation);
      && t.progress[0] == 0.0
      && (forall i, j :: 0 <= i < j < |t.progress| ==> t.progress[i] < t.progress[j])
      && (1.0 in t.progress <==> t.result.Success?)
      && (t.result.Success? ==> Last(t.progress) == 1.0)
  {
    ConvertShape(ci, image, style, lineThickness, contrast, saturation);
  }

  /** An input that does not decode fails with invalidInput after only the reset
      value; no other path yields invalidInput. */
  lemma InvalidInputBeforeFirstCheckpoint(ci: CoreImage, image: UIImage, style: SketchStyle, lineThickness: int, contrast: int, saturation: int)
    ensures var t := Convert(ci, image, style, lineThickness, contrast, saturation);
      && (t.result == Failure(InvalidInput) <==> !ci.decodes(image))
      && (!ci.decodes(image) ==> t.progress == [0.0])
  {
    var plan := PlanFor(style, image, lineThickness, contrast, saturation);
    if ci.decodes(image) {
      RunPhasesOutcome(ci, plan, 0);
    }
  }

  /** When phase k of the style is the first that does not complete (a filter
      without output, or the final rendering), the conversion fails with
      processingFailed and the log stops at the checkpoint before that phase. */
  lemma FailureStopsAtLastCheckpoint(ci: CoreImage, image: UIImage, style: SketchStyle,
                                     lineThickness: int, contrast: int, saturation: int, k: nat)
    requires ci.decodes(image)
    requires k < 4
    requires forall j :: 0 <= j < k ==>
      PhaseCompletes(ci, PlanFor(style, image, lineThickness, contrast, saturation), j)
    requires !PhaseCompletes(ci, PlanFor(style, image, lineThickness, contrast, saturation), k)
    ensures var t := Convert(ci, image, style, lineThickness, contrast, saturation);
      t.result == Failure(ProcessingFailed) && t.progress == ProgressSchedule(style)[..k + 2]
  {
    var plan := PlanFor(style, image, lineThickness, contrast, saturation);
    RunPhasesStopsAt(ci, plan, 0, k);
    assert [0.0] + ([plan.checkpoints[0]] + plan.checkpoints[1..k + 1]) == ProgressSchedule(style)[..k + 2];
  }

  /** The Outline method stage by stage: grayscale, edges at lineThickness * 0.5,
      contrast at contrast / 50, invert last. The progress stops at the
      checkpoint before the first stage without output, and the image is the
      rendering of the inverted recipe. */
  lemma OutlineSteps(ci: CoreImage, image: UIImage, lineThickness: int, contrast: int)
    ensures
      var gray := ColorControls(Decoded(image), 0.0, 1.0);
      var edges := Edges(gray, lineThickness as real * 0.5);
      var contrasted := ColorControls(edges, 1.0, contrast as real / 50.0);
      var final := ColorInvert(contrasted);
      StyleTrace(ci, image, OutlinePlan(Decoded(image), lineThickness, contrast)) ==
        if !ci.decodes(image) then Trace([], Failure(InvalidInput))
        else if !ci.hasOutput(gray) then Trace([0.2], Failure(ProcessingFailed))
        else if !ci.hasOutput(edges) then Trace([0.2, 0.4], Failure(ProcessingFailed))
        else if !ci.hasOutput(contrasted) then Trace([0.2, 0.4, 0.6], Failure(ProcessingFailed))
        else if !ci.hasOutput(final) || ci.render(final).None? then Trace([0.2, 0.4, 0.6, 0.8], Failure(ProcessingFailed))
        else Trace([0.2, 0.4, 0.6, 0.8], Success(ci.render(final).value))
  {
    FourPhaseCases(ci, image, OutlinePlan(Decoded(image), lineThickness, contrast));
  }

  /** The Sketch method stage by stage: the colour dodge takes the inverted blur
      (radius 1.0) of the grayscale image as its input and the unblurred
      grayscale image as its background; contrast is applied last. */
  lemma SketchSteps(ci: CoreImage, image: UIImage, lineThickness: int, contrast: int)
    ensures
      var gray := ColorControls(Decoded(image), 0.0, 1.0);
      var blurred := GaussianBlur(gray, 1.0);
      var inverted := ColorInvert(blurred);
      var dodged := ColorDodgeBlendMode(inverted, gray);
      var final := ColorControls(dodged, 1.0, contrast as real / 50.0);
      StyleTrace(ci, image, SketchPlan(Decoded(image), lineThickness, contrast)) ==
        if !ci.decodes(image) then Trace([], Failure(InvalidInput))
        else if !ci.hasOutput(gray) then Trace([0.3], Failure(ProcessingFailed))
        else if !ci.hasOutput(blurred) || !ci.hasOutput(inverted) then Trace([0.3, 0.5], Failure(ProcessingFailed))
        else if !ci.hasOutput(dodged) then Trace([0.3, 0.5, 0.7], Failure(ProcessingFailed))
        else if !ci.hasOutput(final) || ci.render(final).None? then Trace([0.3, 0.5, 0.7, 0.9], Failure(ProcessingFailed))
        else Trace([0.3, 0.5, 0.7, 0.9], Success(ci.render(final).value))
  {
    FourPhaseCases(ci, image, SketchPlan(Decoded(image), lineThickness, contrast));
  }

  /** The Cartoon method stage by stage: edges are detected on the original
      image (not the smoothed one) and inverted; the median-smoothed original
      gets saturation / 50 and contrast / 50; the inverted edges are
      composited source-over on top. */
  lemma CartoonSteps(ci: CoreImage, image: UIImage, lineThickness: int, contrast: int, saturation: int)
    ensures
      var source := Decoded(image);
      var smooth := Median(source, lineThickness as real);
      var edges := Edges(source, lineThickness as real * 0.5);
      var invertedEdges := ColorInvert(edges);
      var adjusted := ColorControls(smooth, saturation as real / 50.0, contrast as real / 50.0);
      var final := SourceOverCompositing(invertedEdges, adjusted);
      StyleTrace(ci, image, CartoonPlan(Decoded(image), lineThickness, contrast, saturation)) ==
        if !ci.decodes(image) then Trace([], Failure(InvalidInput))
        else if !ci.hasOutput(smooth) then Trace([0.2], Failure(ProcessingFailed))
        else if !ci.hasOutput(edges) || !ci.hasOutput(invertedEdges) then Trace([0.2, 0.4], Failure(ProcessingFailed))
        else if !ci.hasOutput(adjusted) then Trace([0.2, 0.4, 0.6], Failure(ProcessingFailed))
        else if !ci.hasOutput(final) || ci.render(final).None? then Trace([0.2, 0.4, 0.6, 0.8], Failure(ProcessingFailed))
        else Trace([0.2, 0.4, 0.6, 0.8], Success(ci.render(final).value))
  {
    FourPhaseCases(ci, image, CartoonPlan(Decoded(image), lineThickness, contrast, saturation));
  }

  /** Outline and Sketch never see the saturation; Sketch never uses the line
      thickness either. */
  lemma IgnoredParameters(ci: CoreImage, image: UIImage, lineThickness: int, lineThickness': int,
                          contrast: int, saturation: int, saturation': int)
    ensures Convert(ci, image, Outline, lineThickness, contrast, saturation)
         == Convert(ci, image, Outline, lineThickness, contrast, saturation')
    ensures Convert(ci, image, Sketch, lineThickness, contrast, saturation)
         == Convert(ci, image, Sketch, lineThickness', contrast, saturation')
  {
  }

  /** The conversion engine. `progressLog` is every value the progress subject
      has held, starting with its initial 0.0; `delivered` records each result
      handed to a completion handler. */
  class ImageProcessingService {
    const coreImage: CoreImage
    var progressLog: seq<real>
    ghost var delivered: seq<Result<UIImage, ImageProcessingError>>

    constructor (coreImage: CoreImage)
      ensures this.coreImage == coreImage
      ensures progressLog == [0.0] && delivered == []
    {
      this.coreImage := coreImage;
      progressLog := [0.0];
      delivered := [];
    }

    /** progressSubject.send(value) */
    method Send(value: real)
      modifies this`progressLog
      ensures progressLog == old(progressLog) + [value]
    {
      progressLog := progressLog + [value];
    }

    /** Runs one conversion and hands its single result to the completion. */
    method ConvertToSketch(image: UIImage, style: SketchStyle, lineThickness: int, contrast: int, saturation: int)
      returns (result: Result<UIImage, ImageProcessingError>)
      modifies this
      ensures var t := Convert(coreImage, image, style, lineThickness, contrast, saturation);
        progressLog == old(progressLog) + t.progress && result == t.result
      ensures delivered == old(delivered) + [result]
    {
      Send(0.0);
      var processedImage: Result<UIImage, ImageProcessingError>;
      match style {
        case Outline =>
          processedImage := CreateOutlineImage(image, lineThickness, contrast);
        case Sketch =>
          processedImage := CreateSketchImage(image, lineThickness, contrast);
        case Cartoon =>
          processedImage := CreateCartoonImage(image, lineThickness, contrast, saturation);
      }
      if processedImage.Success? {
        Send(1.0);
      }
      result := processedImage;
      delivered := delivered + [result];
    }

    method CreateOutlineImage(image: UIImage, lineThickness: int, contrast: int)
      returns (r: Result<UIImage, ImageProcessingError>)
      modifies this`progressLog
      ensures var t := StyleTrace(coreImage, image, OutlinePlan(Decoded(image), lineThickness, contrast));
        progressLog == old(progressLog) + t.progress && r == t.result
    {
      OutlineSteps(coreImage, image, lineThickness, contrast);
      if !coreImage.decodes(image) {
        return Failure(InvalidInput);
      }
      var ciImage := Decoded(image);
      Send(0.2);
      var grayImage := ColorControls(ciImage, 0.0, NeutralContrast);
      if !coreImage.hasOutput(grayImage) {
        return Failure(ProcessingFailed);
      }
      Send(0.4);
      var edgeImage := Edges(grayImage, EdgeIntensity(lineThickness));
      if !coreImage.hasOutput(edgeImage) {
        return Failure(ProcessingFailed);
      }
      Send(0.6);
      var outputImage := ColorControls(edgeImage, NeutralSaturation, ContrastFactor(contrast));
      if !coreImage.hasOutput(outputImage) {
        return Failure(ProcessingFailed);
      }
      Send(0.8);
      var finalCIImage := ColorInvert(outputImage);
      if !coreImage.hasOutput(finalCIImage) {
        return Failure(ProcessingFailed);
      }
      var rendered := coreImage.render(finalCIImage);
      if rendered.None? {
        return Failure(ProcessingFailed);
      }
      return Success(rendered.value);
    }

    method CreateSketchImage(image: UIImage, lineThickness: int, contrast: int)
      returns (r: Result<UIImage, ImageProcessingError>)
      modifies this`progressLog
      ensures var t := StyleTrace(coreImage, image, SketchPlan(Decoded(image), lineThickness, contrast));
        progressLog == old(progressLog) + t.progress && r == t.result
    {
      SketchSteps(coreImage, image, lineThickness, contrast);
      if !coreImage.decodes(image) {
        return Failure(InvalidInput);
      }
      var ciImage := Decoded(image);
      Send(0.3);
      var grayImage := ColorControls(ciImage, 0.0, NeutralContrast);
      if !coreImage.hasOutput(grayImage) {
        return Failure(ProcessingFailed);
      }
      Send(0.5);
      var blurredImage := GaussianBlur(grayImage, SketchBlurRadius);
      if !coreImage.hasOutput(blurredImage) {
        return Failure(ProcessingFailed);
      }
      var invertedImage := ColorInvert(blurredImage);
      if !coreImage.hasOutput(invertedImage) {
        return Failure(ProcessingFailed);
      }
      Send(0.7);
      var outputImage := ColorDodgeBlendMode(invertedImage, grayImage);
      if !coreImage.hasOutput(outputImage) {
        return Failure(ProcessingFailed);
      }
      Send(0.9);
      var finalCIImage := ColorControls(outputImage, NeutralSaturation, ContrastFactor(contrast));
      if !coreImage.hasOutput(finalCIImage) {
        return Failure(ProcessingFailed);
      }
      var rendered := coreImage.render(finalCIImage);
      if rendered.None? {
        return Failure(ProcessingFailed);
      }
      return Success(rendered.value);
    }

    method CreateCartoonImage(image: UIImage, lineThickness: int, contrast: int, saturation: int)
      returns (r: Result<UIImage, ImageProcessingError>)
      modifies this`progressLog
      ensures var t := StyleTrace(coreImage, image, CartoonPlan(Decoded(image), lineThickness, contrast, saturation));
        progressLog == old(progressLog) + t.progress && r == t.result
    {
      CartoonSteps(coreImage, image, lineThickness, contrast, saturation);
      if !coreImage.decodes(image) {
        return Failure(InvalidInput);
      }
      var ciImage := Decoded(image);
      Send(0.2);
      var smoothImage := Median(ciImage, lineThickness as real);
      if !coreImage.hasOutput(smoothImage) {
        return Failure(ProcessingFailed);
      }
      Send(0.4);
      var edgeImage := Edges(ciImage, EdgeIntensity(lineThickness));
      if !coreImage.hasOutput(edgeImage) {
        return Failure(ProcessingFailed);
      }
      var invertedEdges := ColorInvert(edgeImage);
      if !coreImage.hasOutput(invertedEdges) {
        return Failure(ProcessingFailed);
      }
      Send(0.6);
      var colorAdjustedImage := ColorControls(smoothImage, SaturationFactor(saturation), ContrastFactor(contrast));
      if !coreImage.hasOutput(colorAdjustedImage) {
        return Failure(ProcessingFailed);
      }
      Send(0.8);
      var finalCIImage := SourceOverCompositing(invertedEdges, colorAdjustedImage);
      if !coreImage.hasOutput(finalCIImage) {
        return Failure(ProcessingFailed);
      }
      var rendered := coreImage.render(finalCIImage);
      if rendered.None? {
        return Failure(ProcessingFailed);
      }
      return Success(rendered.value);
    }
  }
}
