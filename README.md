# PP-OCR serving demo — a Dafny model

This project models the local logic of the FastDeploy PP-OCRv3 serving demo
(`deploy/fastdeploy/cpu-gpu/cpp/infer.cc`). The demo is a small HTTP service. On
`POST /detect` it fetches the image named by the JSON body's `link`, decodes it,
and runs the three-stage OCR pipeline (detector → classifier → recognizer) on it.
It replies with `{"texts": [...], "ret": 1}`. At start-up it selects a device and
backend from an integer run option and builds the pipeline once.

The inference runtime (FastDeploy), libcurl, OpenCV and Crow are not visible and
stay abstract. The model states exactly what the file itself does around them.

- `fetch.dfy` (module `Fetch`): the libcurl write callback `write_data` as a
  method on a class holding the growable byte vector; a transfer as a loop of
  such appends over an arbitrary chunking; `curlImg` = transfer, then decode.
- `backend.dfy` (module `Backend`): the runtime option as a value (device,
  backend, the Paddle-Inference TensorRT switches, per-input shape profiles),
  its setters, and the run-option chain of `main`.
- `cli.dfy` (module `Cli`): C's `atoi`, the argument-count check, and what `main`
  hands to `build`.
- `ocr.dfy` (module `Ocr`): artifact paths, per-stage option copies with their
  shape profiles for input `"x"`, the `PPOCRv3` pipeline object with its batch
  sizes, and the builder `Init`. Its configuration code is repeated verbatim in
  `InitAndInfer` and `build`, so it is modelled once.
- `service.dfy` (module `Service`): `Infer`, the `/detect` handler, the
  single-shot `InitAndInfer`, and `build` up to starting the server.

`main` reads the run option with `atoi(argv[5])` (infer.cc:439). The usage
banner (infer.cc:425-430) and the documented command line put the image path
in that slot and the run option after it. The model follows the code.
`Cli.UsageExampleSelectsFlagZero` shows what this means: the banner's own
example invocation selects run option 0, whatever run option it passes. The
documented command line also has six positional arguments, but the code only
demands five (`argc < 6`, infer.cc:424). The model follows the code there too.

Foreign calls become parameters:
- libcurl's delivery for a URL is the list of chunks it hands to the callback.
- `cv::imdecode` is a function from bytes to `Mat`.
- The pipeline's `Predict` is a function from `Mat` to an outcome.
- Crow's `json::load` is a function from the body to an optional parsed `link`.
- The pipeline's `Initialized()` result is a boolean.
- The platform (`WIN32` or not) is a boolean that selects the path separator.

## Model

| member | source | states |
|---|---|---|
| `Fetch.ByteStream.constructor` | deploy/fastdeploy/cpu-gpu/cpp/infer.cc:49 | the stream starts as an empty byte vector |
| `Fetch.ByteStream.WriteData` | deploy/fastdeploy/cpu-gpu/cpp/infer.cc:40-45 | the stream becomes its old contents followed by `ptr[0 .. size*nmemb)`, the old prefix is unchanged, and the returned count is `size*nmemb` |
| `Fetch.ByteStream.Transfer` | deploy/fastdeploy/cpu-gpu/cpp/infer.cc:35-45 | after libcurl calls the callback once per chunk, the stream is its old contents followed by all delivered bytes in order, whatever the fragmentation |
| `Fetch.FlattenConcat` | deploy/fastdeploy/cpu-gpu/cpp/infer.cc:35-45 | appending two runs of chunks delivers the bytes of the first run followed by those of the second |
| `Fetch.FlattenLength` | deploy/fastdeploy/cpu-gpu/cpp/infer.cc:42-43 | the bytes delivered number the sum of the chunk sizes the callback reports |
| `Fetch.ChunksOf` | deploy/fastdeploy/cpu-gpu/cpp/infer.cc:36-38 | a body fragmented into pieces of at most k bytes has only non-empty pieces of at most k bytes |
| `Fetch.ChunksOfRoundTrip` | deploy/fastdeploy/cpu-gpu/cpp/infer.cc:36-39 | the fragmentation `ChunksOf` makes (full k-byte pieces, then the remainder) reassembles to exactly the body |
| `Fetch.ReceiveFragmented` | deploy/fastdeploy/cpu-gpu/cpp/infer.cc:35-45 | a fresh stream fed the `ChunksOf` cut of a body holds exactly that body |
| `Fetch.CurlImg` | deploy/fastdeploy/cpu-gpu/cpp/infer.cc:48-61 | the image is the decoder applied to all bytes delivered for the URL, in order, in a fresh stream |
| `Backend.RuntimeOption.SetTrtInputShape` | deploy/fastdeploy/cpu-gpu/cpp/infer.cc:190-195 | records (min, opt, max) for the named input on this copy only; every other input's profile and every other field are unchanged |
| `Backend.OptionForFlag` | deploy/fastdeploy/cpu-gpu/cpp/infer.cc:438-467 | flags 0-3 select CPU and 4-7 GPU; backends 0 Paddle, 1 OpenVINO, 2 ONNX Runtime, 3 Lite, 4 Paddle, 5 Paddle Inference with TRT, 6 ONNX Runtime, 7 TensorRT; flag 5 sets `enable_trt` and `collect_trt_shape`, and every other flag keeps the default's Paddle-TRT switches; a flag outside 0..7 leaves the default option unchanged |
| `Backend.OnlyFlagFiveEnablesPaddleTrt` | deploy/fastdeploy/cpu-gpu/cpp/infer.cc:456-460 | from a default with Paddle-TRT off, the selected option has Paddle-TRT on exactly when the flag is 5 |
| `Backend.FlagsDistinguishable` | deploy/fastdeploy/cpu-gpu/cpp/infer.cc:441-467 | from a default with Paddle-TRT off, no two run options in 0..7 produce the same option |
| `Cli.SkipSpace` | deploy/fastdeploy/cpu-gpu/cpp/infer.cc:439 | `atoi` skips a leading run of white space: the rest is a suffix that does not start with white space |
| `Cli.DigitPrefix` | deploy/fastdeploy/cpu-gpu/cpp/infer.cc:439 | `atoi` reads the longest run of digits: a prefix of digits, followed by a non-digit or the end |
| `Cli.Atoi` | deploy/fastdeploy/cpu-gpu/cpp/infer.cc:439 | C's `atoi`: text with no sign or digit after the leading white space reads as 0, a negative result needs a leading '-', and a non-zero result needs a digit in the text |
| `Cli.AtoiDigits` | deploy/fastdeploy/cpu-gpu/cpp/infer.cc:439 | a digit string followed by a non-digit reads as the digit string's value |
| `Cli.AtoiNegativeDigits` | deploy/fastdeploy/cpu-gpu/cpp/infer.cc:439 | a minus sign and a digit string read as the negated value |
| `Cli.AtoiPlusDigits` | deploy/fastdeploy/cpu-gpu/cpp/infer.cc:439 | a plus sign and a digit string read as the digit string's value |
| `Cli.AtoiSkipsSpace` | deploy/fastdeploy/cpu-gpu/cpp/infer.cc:439 | leading white space does not change what `atoi` reads |
| `Cli.AtoiIntToString` | deploy/fastdeploy/cpu-gpu/cpp/infer.cc:439 | `atoi` reads back every integer written in decimal, even with non-digit text after it |
| `Cli.AtoiNonNumeric` | deploy/fastdeploy/cpu-gpu/cpp/infer.cc:439 | text starting with neither white space, sign nor digit (such as `./12.jpg`) reads as 0 |
| `Cli.EntryPoint` | deploy/fastdeploy/cpu-gpu/cpp/infer.cc:423-477 | fewer than six argv entries end with exit code -1; otherwise argv[1..4] are the stage directories and the label file, and the option is the run option chain applied to `atoi(argv[5])` |
| `Cli.FlagRoundTrip` | deploy/fastdeploy/cpu-gpu/cpp/infer.cc:438-441 | a run option written in decimal in argv[5] is the one selected |
| `Cli.UsageExampleSelectsFlagZero` | deploy/fastdeploy/cpu-gpu/cpp/infer.cc:425-443 | the usage banner's example invocation selects CPU with Paddle Inference whatever run option it passes last |
| `Ocr.Sep` | deploy/fastdeploy/cpu-gpu/cpp/infer.cc:29-33 | the separator is '\\' exactly when built for WIN32, and '/' otherwise |
| `Ocr.JoinPath` | deploy/fastdeploy/cpu-gpu/cpp/infer.cc:167-174 | a joined path is the directory, then exactly one separator, then the file name |
| `Ocr.DirOf` | deploy/fastdeploy/cpu-gpu/cpp/infer.cc:167-174 | a path recognised as naming a file in a directory is that directory, the separator and the file name |
| `Ocr.DirOfJoin` | deploy/fastdeploy/cpu-gpu/cpp/infer.cc:167-174 | joining a directory, separator and file name can be undone: the directory is recovered exactly |
| `Ocr.ArtifactOf` | deploy/fastdeploy/cpu-gpu/cpp/infer.cc:167-174 | each stage's `inference.pdmodel` and `inference.pdiparams` paths are the stage directory, `sep` (defined at infer.cc:29-33: '\\' under WIN32, '/' otherwise) and the file name, and the two paths differ |
| `Ocr.ArtifactOfInjective` | deploy/fastdeploy/cpu-gpu/cpp/infer.cc:167-174 | distinct stage directories never share an artifact path |
| `Ocr.ProfileFor` | deploy/fastdeploy/cpu-gpu/cpp/infer.cc:183-195 | every profile has min ≤ opt ≤ max and 3 channels; the detector's is batch 1 up to 960×960; the classifier and recognizer start at (1,3,48,10), keep height 48, and use batch 1 and 6 for opt and max |
| `Ocr.ProfilesWellFormed` | deploy/fastdeploy/cpu-gpu/cpp/infer.cc:183-195 | every stage profile has min ≤ opt ≤ max componentwise, and the detector, classifier and recognizer profiles all differ |
| `Ocr.StageOption` | deploy/fastdeploy/cpu-gpu/cpp/infer.cc:176-195 | a stage's option maps `"x"` to that stage's profile, keeps every other input's profile, and equals the input option in every other field |
| `Ocr.StageOptionsIndependent` | deploy/fastdeploy/cpu-gpu/cpp/infer.cc:176-195 | the copies given to two different stages differ, only in their profile for `"x"`: every other field and every other input's profile is the input option's |
| `Ocr.PPOCRv3.constructor` | deploy/fastdeploy/cpu-gpu/cpp/infer.cc:226-227 | the pipeline composes the given detector, optional classifier and recognizer |
| `Ocr.PPOCRv3.SetClsBatchSize` | deploy/fastdeploy/cpu-gpu/cpp/infer.cc:229-235 | accepts -1 or a value ≥ 1 and sets the classifier batch size to it, touching nothing else |
| `Ocr.PPOCRv3.SetRecBatchSize` | deploy/fastdeploy/cpu-gpu/cpp/infer.cc:229-236 | accepts -1 or a value ≥ 1 and sets the recognizer batch size to it, touching nothing else |
| `Ocr.Init` | deploy/fastdeploy/cpu-gpu/cpp/infer.cc:162-242 | builds a fresh pipeline: artifact paths per stage, one option copy per stage with its own profile, the label file on the recognizer, classifier batch 1 and recognizer batch 6; writes a diagnostic when the pipeline is not initialized and returns it anyway |
| `Ocr.ConfiguredStages` | deploy/fastdeploy/cpu-gpu/cpp/infer.cc:176-236 | in a built pipeline the three stage options are pairwise different, each is the input option with its own stage's profile for `"x"` added and nothing else changed, only the recognizer has the label file, and both batch sizes are admissible |
| `Service.InferOn` | deploy/fastdeploy/cpu-gpu/cpp/infer.cc:246-257 | the texts are empty exactly when the image is empty, prediction fails, or it finds no text; non-empty texts are exactly what the pipeline recognized |
| `Service.InferDiagnostics` | deploy/fastdeploy/cpu-gpu/cpp/infer.cc:253-255 | `Infer` writes "Failed to predict." exactly when a non-empty image fails to predict, and nothing otherwise |
| `Service.Infer` | deploy/fastdeploy/cpu-gpu/cpp/infer.cc:244-258 | fetching, decoding and predicting give the texts and diagnostics above for the delivered bytes |
| `Service.Respond` | deploy/fastdeploy/cpu-gpu/cpp/infer.cc:353-362 | status 400 with no body and no header exactly when the body is not JSON; otherwise status 200, `{"texts": ..., "ret": 1}` and `Content-Type: application/json` |
| `Service.HandleDetect` | deploy/fastdeploy/cpu-gpu/cpp/infer.cc:352-363 | an unparsable body gets 400 and no diagnostic; a parsed body gets the reply for the texts inferred from the link, with `Infer`'s diagnostics (the body fetches only in the second case) |
| `Service.ReplyIsUniform` | deploy/fastdeploy/cpu-gpu/cpp/infer.cc:356-359 | every reply to a parsed body has `ret` 1 and texts that are empty or exactly the recognized ones; a link delivering nothing gets `{"texts": [], "ret": 1}` provided the decoder turns empty input into an empty image |
| `Service.InitAndInfer` | deploy/fastdeploy/cpu-gpu/cpp/infer.cc:63-160 | stops with "Failed to initialize PP-OCR." when the pipeline is not initialized; otherwise predicts on the fetched image without testing it for emptiness, and either fails with "Failed to predict." or prints the texts |
| `Service.Build` | deploy/fastdeploy/cpu-gpu/cpp/infer.cc:275-348 | configures the served pipeline exactly as `Init` does |

## Left out

- libcurl itself (URL, `CURLOPT_TIMEOUT` of 10 s, transport errors) is not modelled. A transfer is given as the chunks delivered before it ended, whether it completed, failed or timed out. `curlImg` ignores the result code and decodes whatever arrived. An empty list means no byte arrived: an empty body, or an error or timeout before the first byte.
- Fetch.ByteStream.WriteData: `size * nmemb` is computed without the 64-bit `size_t` wrap-around. libcurl passes `size` 1, and the buffer must hold the product anyway.
- `cv::imdecode` is an uninterpreted function. `cv::imwrite`, `VisOcr`, `OCRResult::Str()` and all standard-output text (the usage banner, printed results) are I/O and are not modelled.
- FastDeploy's model construction, the stages' `Initialized()` asserts (compiled out under NDEBUG), `Predict` and the runtime's own option defaults belong to an unseen library.
- The pre/post-processor setters are not modelled. Their values are only recorded as `Ocr.DetSettings` and `Ocr.ClsThresh`: max side 960, thresholds 0.3 and 0.6, unclip ratio 1.5, score mode "slow", no dilation, classifier threshold 0.9.
- Ocr.PPOCRv3.constructor: the runtime's default batch sizes are not visible, so the constructor leaves them unconstrained.
- Ocr.PPOCRv3.SetClsBatchSize and Ocr.PPOCRv3.SetRecBatchSize: what the runtime does with a value other than -1 or ≥ 1 is not visible. Such values are excluded, as the builder's comment asks.
- `Init` returns a pipeline that holds pointers to the stage models local to `Init`. Object lifetimes are not part of this model, so that dangling reference is not represented.
- Crow is not modelled: the server, `multithreaded()`, port 18080, and serialising the reply with `dump()`. The handler's reply is the JSON value it builds.
- Concurrency between requests on the shared pipeline is not modelled.
- The behaviour when the JSON body lacks `"link"` is not modelled, because it depends on Crow's `rvalue::operator[]`. The parser abstraction yields the link whenever the body parses.
- Cli.Atoi: C's `atoi` has undefined behaviour outside the range of `int`. The model reads the digits as an unbounded integer, so in the model every such value falls outside 0..7 and selects the default option. A C library may instead truncate (glibc reads "4294967301" as 5 on LP64); that case is not modelled.
- The raw socket created in `build` (infer.cc:263-274) and the commented-out socket server (infer.cc:365-420) are not modelled. They are I/O and dead code.
- `main`'s final `return 0` is not modelled, because `build` blocks in the server loop.
