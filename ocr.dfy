/**
 * The OCR pipeline builder (`Init`): artifact paths per stage, one copy of the
 * runtime option per stage carrying that stage's TensorRT shape profile for the
 * input tensor "x", the three stage models, and the pipeline's batch sizes.
 *
 * Model loading, the stages' `Initialized()` checks and `Predict` belong to the
 * inference runtime and are not modelled; a stage model here is the record of
 * what it was constructed from.
 */
module Ocr {
  import opened Wrappers
  import opened Backend

  const ModelFileName := "inference.pdmodel"
  const ParamsFileName := "inference.pdiparams"

  /** The input tensor every stage's shape profile is recorded for. */
  const TrtInputName := "x"

  /** The path separator: '\\' when built for WIN32, '/' otherwise. */
  function Sep(win32: bool): (sep: char)
    ensures sep == '\\' <==> win32
    ensures !win32 ==> sep == '/'
  {
    if win32 then '\\' else '/'
  }

  /** `dir + sep + file`: the directory, then one separator, then the file name. */
  function JoinPath(dir: string, sep: char, file: string): (path: string)
    ensures |path| == |dir| + 1 + |file|
    ensures path[..|dir|] == dir && path[|dir|] == sep && path[|dir| + 1..] == file
  {
    dir + [sep] + file
  }

  /** The directory a path names `file` in, if the path ends with `sep` and `file`. */
  function DirOf(path: string, sep: char, file: string): (dir: Option<string>)
    ensures dir.Some? ==> JoinPath(dir.value, sep, file) == path
  {
    var k := |file| + 1;
    if |path| >= k && path[|path| - k..] == [sep] + file then
      assert path == path[..|path| - k] + path[|path| - k..];
      Some(path[..|path| - k])
    else None
  }

  lemma DirOfJoin(dir: string, sep: char, file: string)
    ensures DirOf(JoinPath(dir, sep, file), sep, file) == Some(dir)
  {
    var path := JoinPath(dir, sep, file);
    assert path[|dir|..] == [sep] + file;
    assert path[..|dir|] == dir;
  }

  /** Graph and weights files of one stage. */
  datatype StageArtifact = StageArtifact(modelFile: string, paramsFile: string)

  /**
   * Both files of a stage lie directly in the stage directory: each path is the
   * directory, the separator, then the fixed file name.
   */
  function ArtifactOf(dir: string, win32: bool): (a: StageArtifact)
    ensures DirOf(a.modelFile, Sep(win32), ModelFileName) == Some(dir)
    ensures DirOf(a.paramsFile, Sep(win32), ParamsFileName) == Some(dir)
    ensures a.modelFile != a.paramsFile
  {
    DirOfJoin(dir, Sep(win32), ModelFileName);
    DirOfJoin(dir, Sep(win32), ParamsFileName);
    StageArtifact(JoinPath(dir, Sep(win32), ModelFileName), JoinPath(dir, Sep(win32), ParamsFileName))
  }

  /** Distinct stage directories give distinct artifact files. */
  lemma ArtifactOfInjective(dir1: string, dir2: string, win32: bool)
    requires dir1 != dir2
    ensures ArtifactOf(dir1, win32).modelFile != ArtifactOf(dir2, win32).modelFile
    ensures ArtifactOf(dir1, win32).paramsFile != ArtifactOf(dir2, win32).paramsFile
  {
  }

  datatype StageKind = Detector | Classifier | Recognizer

  const ClsBatchSize := 1
  const RecBatchSize := 6

  /** The shape profile each stage's option receives for input "x". */
  function ProfileFor(kind: StageKind): (p: ShapeProfile)
    ensures Ordered(p)
    ensures p.min.c == p.opt.c == p.max.c == 3
    ensures kind != Detector ==> p.min == Shape(1, 3, 48, 10) && p.opt.h == p.max.h == 48
    ensures kind == Classifier ==> p.opt.n == p.max.n == ClsBatchSize
    ensures kind == Recognizer ==> p.opt.n == p.max.n == RecBatchSize
    ensures kind == Detector ==> p.min.n == p.opt.n == p.max.n == 1 && p.max.h == p.max.w == 960
  {
    match kind
    case Detector => ShapeProfile(Shape(1, 3, 64, 64), Shape(1, 3, 640, 640), Shape(1, 3, 960, 960))
    case Classifier =>
      ShapeProfile(Shape(1, 3, 48, 10), Shape(ClsBatchSize, 3, 48, 320), Shape(ClsBatchSize, 3, 48, 1024))
    case Recognizer =>
      ShapeProfile(Shape(1, 3, 48, 10), Shape(RecBatchSize, 3, 48, 320), Shape(RecBatchSize, 3, 48, 2304))
  }

  predicate ShapeLe(a: Shape, b: Shape)
  {
    a.n <= b.n && a.c <= b.c && a.h <= b.h && a.w <= b.w
  }

  predicate Ordered(p: ShapeProfile)
  {
    ShapeLe(p.min, p.opt) && ShapeLe(p.opt, p.max)
  }

  /** Every stage profile satisfies min <= opt <= max componentwise, and the stages' profiles differ. */
  lemma ProfilesWellFormed(k1: StageKind, k2: StageKind)
    ensures Ordered(ProfileFor(k1))
    ensures k1 != k2 ==> ProfileFor(k1) != ProfileFor(k2)
  {
  }

  /** The option a stage is constructed with: the input option plus that stage's own profile for "x". */
  function StageOption(option: RuntimeOption, kind: StageKind): (o: RuntimeOption)
    ensures TrtInputName in o.trtShapes && o.trtShapes[TrtInputName] == ProfileFor(kind)
    ensures o.trtShapes == option.trtShapes[TrtInputName := ProfileFor(kind)]
    ensures o.(trtShapes := option.trtShapes) == option
  {
    var p := ProfileFor(kind);
    option.SetTrtInputShape(TrtInputName, p.min, p.opt, p.max)
  }

  /**
   * Copies of one option given to different stages never share a profile for "x",
   * and apart from that profile each copy equals the input option.
   */
  lemma StageOptionsIndependent(option: RuntimeOption, k1: StageKind, k2: StageKind)
    requires k1 != k2
    ensures StageOption(option, k1) != StageOption(option, k2)
    ensures StageOption(option, k1).(trtShapes := map[]) == StageOption(option, k2).(trtShapes := map[])
    ensures forall name :: name != TrtInputName ==>
      (name in StageOption(option, k1).trtShapes <==> name in StageOption(option, k2).trtShapes) &&
      (name in option.trtShapes ==>
         StageOption(option, k1).trtShapes[name] == option.trtShapes[name] == StageOption(option, k2).trtShapes[name])
  {
    ProfilesWellFormed(k1, k2);
    assert StageOption(option, k1).trtShapes[TrtInputName] != StageOption(option, k2).trtShapes[TrtInputName];
  }

  datatype StageModel = StageModel(
    kind: StageKind,
    artifact: StageArtifact,
    labelFile: Option<string>,
    option: RuntimeOption)

  /** Detector pre/post-processing settings, recorded as the values the builder passes. */
  datatype DetectorSettings = DetectorSettings(
    maxSideLen: int, dbThresh: real, dbBoxThresh: real, dbUnclipRatio: real,
    dbScoreMode: string, useDilation: bool)

  const DetSettings := DetectorSettings(960, 0.3, 0.6, 1.5, "slow", false)
  const ClsThresh: real := 0.9

  /** Batch sizes the pipeline accepts: -1 (as many as the detector finds) or at least 1. */
  predicate ValidBatchSize(n: int)
  {
    n == -1 || n >= 1
  }

  /** The three-stage pipeline; the classifier is optional. */
  class PPOCRv3 {
    const det: StageModel
    const cls: Option<StageModel>
    const rec: StageModel
    var clsBatchSize: int
    var recBatchSize: int

    /** Composes the stages; the batch sizes keep the runtime's defaults, which are not modelled. */
    constructor (det: StageModel, cls: Option<StageModel>, rec: StageModel)
      ensures this.det == det && this.cls == cls && this.rec == rec
    {
      this.det := det;
      this.cls := cls;
      this.rec := rec;
    }

    method SetClsBatchSize(n: int)
      requires ValidBatchSize(n)
      modifies this`clsBatchSize
      ensures clsBatchSize == n
    {
      clsBatchSize := n;
    }

    method SetRecBatchSize(n: int)
      requires ValidBatchSize(n)
      modifies this`recBatchSize
      ensures recBatchSize == n
    {
      recBatchSize := n;
    }
  }

  const InitFailedMessage := "Failed to initialize PP-OCR."

  /** What the builder leaves in a pipeline built from these arguments. */
  ghost predicate Configured(p: PPOCRv3, detDir: string, clsDir: string, recDir: string,
                             labelFile: string, option: RuntimeOption, win32: bool)
    reads p
  {
    && p.det == StageModel(Detector, ArtifactOf(detDir, win32), None, StageOption(option, Detector))
    && p.cls == Some(StageModel(Classifier, ArtifactOf(clsDir, win32), None, StageOption(option, Classifier)))
    && p.rec == StageModel(Recognizer, ArtifactOf(recDir, win32), Some(labelFile), StageOption(option, Recognizer))
    && p.clsBatchSize == ClsBatchSize
    && p.recBatchSize == RecBatchSize
  }

  /**
   * The builder. `initialized` is what the pipeline's `Initialized()` reports;
   * when it is false the builder writes a diagnostic and returns the pipeline anyway.
   */
  method Init(detDir: string, clsDir: string, recDir: string, labelFile: string,
              option: RuntimeOption, win32: bool, initialized: bool)
    returns (p: PPOCRv3, stderr: seq<string>)
    ensures fresh(p)
    ensures Configured(p, detDir, clsDir, recDir, labelFile, option, win32)
    ensures stderr == if initialized then [] else [InitFailedMessage]
  {
    var sep := Sep(win32);
    var detModelFile := JoinPath(detDir, sep, ModelFileName);
    var detParamsFile := JoinPath(detDir, sep, ParamsFileName);
    var clsModelFile := JoinPath(clsDir, sep, ModelFileName);
    var clsParamsFile := JoinPath(clsDir, sep, ParamsFileName);
    var recModelFile := JoinPath(recDir, sep, ModelFileName);
    var recParamsFile := JoinPath(recDir, sep, ParamsFileName);

    var detOption := option;
    var clsOption := option;
    var recOption := option;

    var clsBatchSize := 1;
    var recBatchSize := 6;

    detOption := detOption.SetTrtInputShape(TrtInputName, Shape(1, 3, 64, 64), Shape(1, 3, 640, 640),
                                            Shape(1, 3, 960, 960));
    clsOption := clsOption.SetTrtInputShape(TrtInputName, Shape(1, 3, 48, 10), Shape(clsBatchSize, 3, 48, 320),
                                            Shape(clsBatchSize, 3, 48, 1024));
    recOption := recOption.SetTrtInputShape(TrtInputName, Shape(1, 3, 48, 10), Shape(recBatchSize, 3, 48, 320),
                                            Shape(recBatchSize, 3, 48, 2304));

    var detModel := StageModel(Detector, StageArtifact(detModelFile, detParamsFile), None, detOption);
    var clsModel := StageModel(Classifier, StageArtifact(clsModelFile, clsParamsFile), None, clsOption);
    var recModel := StageModel(Recognizer, StageArtifact(recModelFile, recParamsFile), Some(labelFile), recOption);

    p := new PPOCRv3(detModel, Some(clsModel), recModel);
    p.SetClsBatchSize(clsBatchSize);
    p.SetRecBatchSize(recBatchSize);

    stderr := if initialized then [] else [InitFailedMessage];
  }

  /**
   * In a configured pipeline each stage runs on its own profile for "x", the
   * recognizer alone has the label file, and both batch sizes are ones the
   * pipeline accepts.
   */
  lemma ConfiguredStages(p: PPOCRv3, detDir: string, clsDir: string, recDir: string,
                         labelFile: string, option: RuntimeOption, win32: bool)
    requires Configured(p, detDir, clsDir, recDir, labelFile, option, win32)
    ensures p.cls.Some?
    ensures p.det.option != p.cls.value.option && p.cls.value.option != p.rec.option
            && p.det.option != p.rec.option
    ensures p.det.option.trtShapes[TrtInputName] == ProfileFor(Detector)
    ensures p.cls.value.option.trtShapes[TrtInputName] == ProfileFor(Classifier)
    ensures p.rec.option.trtShapes[TrtInputName] == ProfileFor(Recognizer)
    ensures p.det.option.trtShapes == option.trtShapes[TrtInputName := ProfileFor(Detector)]
    ensures p.cls.value.option.trtShapes == option.trtShapes[TrtInputName := ProfileFor(Classifier)]
    ensures p.rec.option.trtShapes == option.trtShapes[TrtInputName := ProfileFor(Recognizer)]
    ensures p.det.option.(trtShapes := option.trtShapes) == option
    ensures p.cls.value.option.(trtShapes := option.trtShapes) == option
    ensures p.rec.option.(trtShapes := option.trtShapes) == option
    ensures p.det.labelFile.None? && p.cls.value.labelFile.None? && p.rec.labelFile == Some(labelFile)
    ensures ValidBatchSize(p.clsBatchSize) && ValidBatchSize(p.recBatchSize)
  {
    StageOptionsIndependent(option, Detector, Classifier);
    StageOptionsIndependent(option, Classifier, Recognizer);
    StageOptionsIndependent(option, Detector, Recognizer);
  }
}
