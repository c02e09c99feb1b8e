/**
 * runInference (server/index.js): one HTTP call to a running model's
 * endpoint, normalised into a TestResult whatever happens. The network, the
 * clock, uuid and Math.random are oracles: an `Attempt` holds what they
 * yielded for one image.
 */
module Inference {
  import opened Wrappers
  import opened Registry

  /**
   * What the call to the model container yielded: either something threw
   * (fetch rejected, the body was not JSON, or the body was JSON null), or a
   * JSON object came back after `elapsedMs` milliseconds. `prediction` and
   * `confidence` are the object's fields (None when missing); `randomDraw`
   * is the value `Math.random() * 100` would produce.
   */
  datatype Reply =
    | Threw(message: string)
    | Answered(elapsedMs: nat, prediction: Option<string>, confidence: Option<real>, randomDraw: real)

  /** The oracle answers for one image: the fresh result id, the timestamp and the reply. */
  datatype Attempt = Attempt(resultId: string, timestamp: string, reply: Reply)

  const UnknownPrediction: string := "Unknown"
  const ErrorPrediction: string := "Error"

  /** `prediction.prediction || 'Unknown'` */
  function PredictionOrUnknown(p: Option<string>): (shown: string)
    ensures shown != ""
    ensures p.Some? && p.value != "" ==> shown == p.value
    ensures p.None? || p.value == "" ==> shown == UnknownPrediction
  {
    if p.Some? && p.value != "" then p.value else UnknownPrediction
  }

  /** `prediction.confidence || Math.random() * 100` */
  function ConfidenceOrDraw(c: Option<real>, draw: real): (score: real)
    ensures c.Some? && c.value != 0.0 ==> score == c.value
    ensures c.None? || c.value == 0.0 ==> score == draw
  {
    if c.Some? && c.value != 0.0 then c.value else draw
  }

  /**
   * runInference: never throws. A reply yields a completed result; anything
   * that threw yields a failed one with confidence 0, prediction "Error",
   * time 0 and the error message. Both carry the image's name and the
   * model's name.
   */
  function RunInference(model: Model, image: UploadedFile, attempt: Attempt): (r: TestResult)
    ensures r.id == attempt.resultId && r.timestamp == attempt.timestamp
    ensures r.filename == image.originalName && r.model == model.name
    ensures r.status == Completed <==> attempt.reply.Answered?
    ensures r.status == Failed ==>
      r.confidence == 0.0 && r.prediction == ErrorPrediction && r.inferenceTimeMs == 0 &&
      r.error == Some(attempt.reply.message)
    ensures r.status == Completed ==>
      && r.error.None?
      && r.prediction == PredictionOrUnknown(attempt.reply.prediction)
      && r.confidence == ConfidenceOrDraw(attempt.reply.confidence, attempt.reply.randomDraw)
      && r.inferenceTimeMs == attempt.reply.elapsedMs
  {
    match attempt.reply
    case Answered(ms, p, c, draw) =>
      TestResult(attempt.resultId, image.originalName, model.name,
                 ConfidenceOrDraw(c, draw), PredictionOrUnknown(p), ms,
                 Completed, attempt.timestamp, None)
    case Threw(msg) =>
      TestResult(attempt.resultId, image.originalName, model.name,
                 0.0, ErrorPrediction, 0,
                 Failed, attempt.timestamp, Some(msg))
  }

  /**
   * The results of testing `images` one after the other against `model`,
   * image k meeting the oracle answers `world(k)`: one result per image
   * (BatchAt: the k-th result is that of the k-th image).
   */
  function Batch(model: Model, images: seq<UploadedFile>, world: nat -> Attempt): (rs: seq<TestResult>)
    ensures |rs| == |images|
    decreases |images|
  {
    if |images| == 0 then []
    else
      var last := |images| - 1;
      Batch(model, images[..last], world) + [RunInference(model, images[last], world(last))]
  }

  /** The k-th result of a batch is the result of testing the k-th image: input order is kept. */
  lemma {:induction false} BatchAt(model: Model, images: seq<UploadedFile>, world: nat -> Attempt, k: nat)
    requires k < |images|
    ensures Batch(model, images, world)[k] == RunInference(model, images[k], world(k))
    decreases |images|
  {
    var last := |images| - 1;
    if k < last {
      BatchAt(model, images[..last], world, k);
    }
  }

  /** Testing one more image appends exactly its result to the batch. */
  lemma BatchSnoc(model: Model, images: seq<UploadedFile>, k: nat, world: nat -> Attempt)
    requires k < |images|
    ensures Batch(model, images[..k + 1], world) ==
            Batch(model, images[..k], world) + [RunInference(model, images[k], world(k))]
  {
    assert images[..k + 1][..k] == images[..k];
  }
}
