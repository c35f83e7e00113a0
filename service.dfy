/**
 * The request side: `Infer`, the `/detect` route handler that `build` installs,
 * and the single-shot `InitAndInfer`.
 *
 * The pipeline's `Predict` is an uninterpreted function from the decoded image to
 * an outcome, and Crow's JSON parser an uninterpreted function from the request
 * body to the parsed `link`, if the body parses. The reply is kept as the JSON
 * value the handler builds, not as the text Crow serialises it to.
 */
module Service {
  import opened Wrappers
  import opened Backend
  import opened Fetch
  import opened Ocr

  datatype PredictOutcome = PredictFailed | Predicted(text: seq<string>)

  const PredictFailedMessage := "Failed to predict."

  /**
   * `Infer` after the fetch: an empty image or a failed prediction give no texts;
   * otherwise the recognized texts, in the order the pipeline reports them.
   */
  function InferOn(im: Mat, predict: Mat -> PredictOutcome): (texts: seq<string>)
    ensures texts != [] ==> !im.IsEmpty() && predict(im) == Predicted(texts)
    ensures texts == [] <==> im.IsEmpty() || predict(im).PredictFailed? || predict(im).text == []
  {
    if im.IsEmpty() then []
    else match predict(im)
      case PredictFailed => []
      case Predicted(text) => text
  }

  /** The diagnostic `Infer` writes: only a failed prediction on a non-empty image writes one. */
  function InferDiagnostics(im: Mat, predict: Mat -> PredictOutcome): (lines: seq<string>)
    ensures lines != [] <==> !im.IsEmpty() && predict(im).PredictFailed?
    ensures lines != [] ==> lines == [PredictFailedMessage]
  {
    if !im.IsEmpty() && predict(im).PredictFailed? then [PredictFailedMessage] else []
  }

  /** `Infer`: fetch and decode the image at the link, then run the pipeline on it. */
  method Infer(chunks: seq<seq<Byte>>, decode: seq<Byte> -> Mat, predict: Mat -> PredictOutcome)
    returns (texts: seq<string>, stderr: seq<string>)
    ensures texts == InferOn(decode(Flatten(chunks)), predict)
    ensures stderr == InferDiagnostics(decode(Flatten(chunks)), predict)
  {
    var im := CurlImg(chunks, decode);
    if im.IsEmpty() {
      return [], [];
    }
    var result := predict(im);
    if result.PredictFailed? {
      return [], [PredictFailedMessage];
    }
    return result.text, [];
  }

  /** The part of a parsed request body the handler uses. */
  datatype JsonBody = JsonBody(link: string)

  /** The JSON reply `{"texts": [...], "ret": 1}`. */
  datatype Reply = Reply(texts: seq<string>, ret: int)

  datatype Response = Response(status: int, body: Option<Reply>, headers: seq<(string, string)>)

  const JsonContentType := ("Content-Type", "application/json")

  /**
   * The response of the `/detect` handler: 400 with no body when the request
   * body is not JSON; otherwise 200, the texts inferred for the link with
   * `ret` 1, and a JSON content type.
   */
  function Respond(parsed: Option<JsonBody>, texts: seq<string>): (r: Response)
    ensures r.status == 400 <==> parsed.None?
    ensures parsed.None? ==> r.body.None? && r.headers == []
    ensures parsed.Some? ==>
      r.status == 200 && r.body == Some(Reply(texts, 1)) && r.headers == [JsonContentType]
  {
    if parsed.None? then Response(400, None, []) else Response(200, Some(Reply(texts, 1)), [JsonContentType])
  }

  /**
   * The route handler. `fetch` gives, per link, the chunks libcurl delivers; the
   * link is fetched only when the body parses.
   */
  method HandleDetect(body: string, parse: string -> Option<JsonBody>, fetch: string -> seq<seq<Byte>>,
                      decode: seq<Byte> -> Mat, predict: Mat -> PredictOutcome)
    returns (resp: Response, stderr: seq<string>)
    ensures parse(body).None? ==> resp == Respond(None, []) && stderr == []
    ensures parse(body).Some? ==>
      var im := decode(Flatten(fetch(parse(body).value.link)));
      resp == Respond(parse(body), InferOn(im, predict)) && stderr == InferDiagnostics(im, predict)
  {
    var x := parse(body);
    if x.None? {
      return Respond(None, []), [];
    }
    var link := x.value.link;
    var result;
    result, stderr := Infer(fetch(link), decode, predict);
    resp := Respond(x, result);
  }

  /**
   * Every reply to a body that parses has `ret` 1, and its texts are either empty
   * or exactly what the pipeline recognized; in particular a link that delivers no
   * bytes, when empty input does not decode to an image, gets `{"texts": [], "ret": 1}`.
   */
  lemma ReplyIsUniform(j: JsonBody, chunks: seq<seq<Byte>>, decode: seq<Byte> -> Mat,
                       predict: Mat -> PredictOutcome)
    ensures var im := decode(Flatten(chunks));
            var r := Respond(Some(j), InferOn(im, predict));
            r.body.Some? && r.body.value.ret == 1 &&
            (r.body.value.texts == [] || predict(im) == Predicted(r.body.value.texts))
    ensures Flatten(chunks) == [] && decode([]).IsEmpty() ==>
            Respond(Some(j), InferOn(decode(Flatten(chunks)), predict)).body == Some(Reply([], 1))
  {
  }

  /** How the single-shot build-and-infer ends. */
  datatype OneShot = NotInitialized | PredictionFailed | Printed(texts: seq<string>)

  /**
   * `InitAndInfer`: build the pipeline, stop if it is not initialized, fetch the
   * image, predict, and print the result. Unlike `Infer` it does not test the
   * decoded image for emptiness before predicting.
   */
  method InitAndInfer(detDir: string, clsDir: string, recDir: string, labelFile: string, imageFile: string,
                      option: RuntimeOption, win32: bool, initialized: bool,
                      fetch: string -> seq<seq<Byte>>, decode: seq<Byte> -> Mat, predict: Mat -> PredictOutcome)
    returns (outcome: OneShot, stderr: seq<string>)
    ensures !initialized ==> outcome == NotInitialized && stderr == [InitFailedMessage]
    ensures initialized ==>
      match predict(decode(Flatten(fetch(imageFile))))
      case PredictFailed => outcome == PredictionFailed && stderr == [PredictFailedMessage]
      case Predicted(text) => outcome == Printed(text) && stderr == []
  {
    var p;
    p, stderr := Init(detDir, clsDir, recDir, labelFile, option, win32, initialized);
    if !initialized {
      return NotInitialized, stderr;
    }
    var im := CurlImg(fetch(imageFile), decode);
    var result := predict(im);
    if result.PredictFailed? {
      return PredictionFailed, stderr + [PredictFailedMessage];
    }
    outcome := Printed(result.text);
  }

  /**
   * `build` up to starting the server: the same configuration as `Init`. The
   * server that then uses this pipeline is not modelled (`HandleDetect` stands
   * for its `Predict` with an uninterpreted function).
   */
  method Build(detDir: string, clsDir: string, recDir: string, labelFile: string,
               option: RuntimeOption, win32: bool, initialized: bool)
    returns (p: PPOCRv3, stderr: seq<string>)
    ensures fresh(p)
    ensures Configured(p, detDir, clsDir, recDir, labelFile, option, win32)
    ensures stderr == if initialized then [] else [InitFailedMessage]
  {
    p, stderr := Init(detDir, clsDir, recDir, labelFile, option, win32, initialized);
  }
}
