/**
 * The inference runtime's option record and the selector in `main` that turns
 * the integer run option into a device and a backend.
 *
 * The runtime's default-constructed option is not visible, so it is a parameter
 * (`d`) wherever one is needed; the selector only ever changes the fields its
 * chain of setter calls names.
 */
module Backend {
  datatype Device = Cpu | Gpu

  /**
   * Backend kinds. `UsePaddleBackend` and `UsePaddleInferBackend` both select
   * Paddle Inference. `BackendUnknown` is what a default-constructed option may carry.
   */
  datatype BackendKind = BackendUnknown | PaddleInference | OpenVino | OnnxRuntime | PaddleLite | TensorRt

  datatype PaddleInferOption = PaddleInferOption(enableTrt: bool, collectTrtShape: bool)

  /** A 4-D tensor shape (N, C, H, W). */
  datatype Shape = Shape(n: int, c: int, h: int, w: int)

  /** Dynamic-shape profile of one input tensor for TensorRT. */
  datatype ShapeProfile = ShapeProfile(min: Shape, opt: Shape, max: Shape)

  datatype RuntimeOption = RuntimeOption(
    device: Device,
    backend: BackendKind,
    paddleInfer: PaddleInferOption,
    trtShapes: map<string, ShapeProfile>)
  {
    function UseCpu(): RuntimeOption { this.(device := Cpu) }
    function UseGpu(): RuntimeOption { this.(device := Gpu) }
    function UsePaddleBackend(): RuntimeOption { this.(backend := PaddleInference) }
    function UsePaddleInferBackend(): RuntimeOption { this.(backend := PaddleInference) }
    function UseOpenVinoBackend(): RuntimeOption { this.(backend := OpenVino) }
    function UseOrtBackend(): RuntimeOption { this.(backend := OnnxRuntime) }
    function UseLiteBackend(): RuntimeOption { this.(backend := PaddleLite) }
    function UseTrtBackend(): RuntimeOption { this.(backend := TensorRt) }

    /**
     * Records the (min, opt, max) profile of input `name` on this copy only:
     * the profile of every other input and every other field stay as they were.
     */
    function SetTrtInputShape(name: string, min: Shape, opt: Shape, max: Shape): (o: RuntimeOption)
      ensures name in o.trtShapes && o.trtShapes[name] == ShapeProfile(min, opt, max)
      ensures forall other :: other != name ==>
        (other in o.trtShapes <==> other in trtShapes) &&
        (other in trtShapes ==> o.trtShapes[other] == trtShapes[other])
      ensures o.(trtShapes := trtShapes) == this
    {
      this.(trtShapes := trtShapes[name := ShapeProfile(min, opt, max)])
    }
  }

  /** The device each run option 0..7 selects, in order. */
  const DeviceTable: seq<Device> := [Cpu, Cpu, Cpu, Cpu, Gpu, Gpu, Gpu, Gpu]

  /** The backend each run option 0..7 selects, in order. */
  const BackendTable: seq<BackendKind> :=
    [PaddleInference, OpenVino, OnnxRuntime, PaddleLite,
     PaddleInference, PaddleInference, OnnxRuntime, TensorRt]

  /**
   * The if/else chain of `main`, applied to the default-constructed option `d`.
   * It covers 0..7 and has no final else.
   */
  function OptionForFlag(flag: int, d: RuntimeOption): (o: RuntimeOption)
    ensures 0 <= flag < 8 ==> o.device == DeviceTable[flag] && o.backend == BackendTable[flag]
    ensures 0 <= flag < 4 ==> o.device == Cpu
    ensures 4 <= flag < 8 ==> o.device == Gpu
    ensures !(0 <= flag < 8) ==> o == d
    ensures flag == 5 ==> o.paddleInfer.enableTrt && o.paddleInfer.collectTrtShape
    ensures flag != 5 ==> o.paddleInfer == d.paddleInfer
    ensures o.trtShapes == d.trtShapes
  {
    if flag == 0 then d.UseCpu().UsePaddleBackend()
    else if flag == 1 then d.UseCpu().UseOpenVinoBackend()
    else if flag == 2 then d.UseCpu().UseOrtBackend()
    else if flag == 3 then d.UseCpu().UseLiteBackend()
    else if flag == 4 then d.UseGpu().UsePaddleBackend()
    else if flag == 5 then
      var o := d.UseGpu().UsePaddleInferBackend();
      var o := o.(paddleInfer := o.paddleInfer.(collectTrtShape := true));
      o.(paddleInfer := o.paddleInfer.(enableTrt := true))
    else if flag == 6 then d.UseGpu().UseOrtBackend()
    else if flag == 7 then d.UseGpu().UseTrtBackend()
    else d
  }

  /**
   * Flag 5 is the only run option that switches Paddle-TensorRT on: starting from
   * a default that has it off, the selected option has it on exactly for flag 5.
   */
  lemma OnlyFlagFiveEnablesPaddleTrt(flag: int, d: RuntimeOption)
    requires !d.paddleInfer.enableTrt
    ensures OptionForFlag(flag, d).paddleInfer.enableTrt <==> flag == 5
  {
  }

  /** Two run options in 0..7 give the same option only when they are the same flag. */
  lemma FlagsDistinguishable(f1: int, f2: int, d: RuntimeOption)
    requires 0 <= f1 < 8 && 0 <= f2 < 8 && f1 != f2
    requires !d.paddleInfer.enableTrt
    ensures OptionForFlag(f1, d) != OptionForFlag(f2, d)
  {
  }
}
