/**
 * The request handlers of server/index.js over the module-level state: the
 * model registry `models`, the result log `testResults`, and the files the
 * upload middleware has stored. Each handler runs as one atomic step; the
 * container runtime, the file system's unlink, the inference endpoint, uuid
 * and the clock are oracles passed in as parameters.
 */
module Server {
  import opened Wrappers
  import opened Registry
  import opened Docker
  import opened Inference

  /** The fields of a deploy request: the form text fields and the uploaded archive. */
  datatype DeployRequest = DeployRequest(
    modelName: FormField,
    description: FormField,
    port: FormField,
    endpoint: FormField,
    file: Option<UploadedFile>)

  /** What a handler answers: its success body, or an HTTP error status with its message. */
  datatype Response =
    | ModelDeployed(model: Model)
    | ModelToggled(model: Model)
    | ModelDeleted
    | TestsRun(results: seq<TestResult>)
    | Error(code: nat, error: string, details: Option<string>)

  const NoFileUploaded: string := "No Docker container file uploaded"
  const ModelNotFound: string := "Model not found"
  const DeployFailed: string := "Failed to deploy model"
  const ToggleFailed: string := "Failed to toggle model"
  const DeleteFailed: string := "Failed to delete model"
  const MustBeRunning: string := "Model must be running to perform tests"
  const NoImages: string := "No images uploaded for testing"

  /** The record's container and image names are the ones derived from its id. */
  predicate WellNamed(m: Model) {
    m.containerName == ContainerNameFor(m.id) && m.imageName == ImageNameFor(m.containerName)
  }

  /** The paths the upload middleware stores for a request's files. */
  function PathsOf(files: seq<UploadedFile>): (paths: set<string>)
    ensures forall k :: 0 <= k < |files| ==> files[k].path in paths
  {
    set k | 0 <= k < |files| :: files[k].path
  }

  /** Every stored path is the path of one of the request's files. */
  lemma PathsOfOnlyFiles(files: seq<UploadedFile>, p: string)
    requires p in PathsOf(files)
    ensures exists k :: 0 <= k < |files| && files[k].path == p
  {
  }

  /** The status a successful toggle moves to. */
  function Toggled(s: Status): (t: Status)
    ensures t != s
  {
    match s
    case Running => Stopped
    case Stopped => Running
  }

  /** Two successful toggles give back the record exactly as it was. */
  lemma ToggleTwiceRestores(models: seq<Model>, i: nat)
    requires i < |models|
    ensures var once := models[i := models[i].(status := Toggled(models[i].status))];
            once[i := once[i].(status := Toggled(once[i].status))] == models
  {
  }

  /** Every record of the list is well named. */
  ghost predicate AllWellNamed(models: seq<Model>) {
    forall i :: 0 <= i < |models| ==> WellNamed(models[i])
  }

  /**
   * Replacing a record by one with the same id and names (a status or count
   * change) keeps ids unique, every record well named, and every lookup.
   */
  lemma ReplaceKeepsValid(models: seq<Model>, i: nat, m: Model)
    requires UniqueIds(models) && AllWellNamed(models) && i < |models|
    requires m.id == models[i].id && m.containerName == models[i].containerName && m.imageName == models[i].imageName
    ensures UniqueIds(models[i := m]) && AllWellNamed(models[i := m])
    ensures forall id :: IndexOf(models[i := m], id) == IndexOf(models, id)
  {
    ReplaceKeepsIds(models, i, m);
  }

  class ModelServer {
    var models: seq<Model>
    var testResults: seq<TestResult>
    var uploads: set<string>

    /** Ids are unique and every record's container and image names derive from its id. */
    ghost predicate Valid()
      reads this
    {
      UniqueIds(models) && AllWellNamed(models)
    }

    constructor ()
      ensures Valid()
      ensures models == [] && testResults == [] && uploads == {}
    {
      models := [];
      testResults := [];
      uploads := {};
    }

    /**
     * POST /api/models/deploy. The archive stays on disk whatever happens.
     * Without a file, or when the image build fails, nothing is recorded;
     * otherwise exactly one stopped record is appended.
     */
    method Deploy(req: DeployRequest, modelId: string, rt: Runtime, containerSize: string, created: string)
      returns (r: Response)
      requires Valid()
      requires IndexOf(models, modelId).None?
      modifies this
      ensures Valid()
      ensures testResults == old(testResults)
      ensures uploads == old(uploads) + (if req.file.Some? then {req.file.value.path} else {})
      ensures req.file.None? ==> r == Error(400, NoFileUploaded, None) && models == old(models)
      ensures req.file.Some? && rt.build.Fail? ==>
        r == Error(500, DeployFailed, Some(LoadImageError + rt.build.message)) && models == old(models)
      ensures r.ModelDeployed? <==> req.file.Some? && rt.build.Pass?
      ensures r.ModelDeployed? ==> models == old(models) + [r.model]
      ensures r.ModelDeployed? ==>
        && r.model.id == modelId
        && r.model.name == req.modelName
        && r.model.description == req.description
        && r.model.status == Stopped
        && r.model.accuracy == 0
        && r.model.inferenceTime == "0ms"
        && r.model.created == created
        && r.model.imageCount == 0
        && r.model.containerSize == containerSize
        && r.model.containerName == "model-" + modelId
        && r.model.imageName == r.model.containerName + ":latest"
        && r.model.port == PortOrDefault(req.port)
        && r.model.endpoint == EndpointOrDefault(req.endpoint)
        && r.model.filePath == req.file.value.path
    {
      if req.file.None? {
        return Error(400, NoFileUploaded, None);
      }
      var file := req.file.value;
      uploads := uploads + {file.path};
      var containerName := ContainerNameFor(modelId);
      var image := LoadDockerImage(containerName, rt);
      if image.Failure? {
        return Error(500, DeployFailed, Some(image.message));
      }
      var m := Model(
        modelId, req.modelName, req.description, Stopped, 0, "0ms", created, 0, containerSize,
        containerName, image.value, PortOrDefault(req.port), EndpointOrDefault(req.endpoint), file.path);
      AppendFreshKeepsUnique(models, m);
      models := models + [m];
      r := ModelDeployed(m);
    }

    /**
     * POST /api/models/:id/toggle. A running model is stopped, any other is
     * started; the status changes only when that runtime call succeeds, and
     * nothing else in the state changes.
     */
    method Toggle(id: string, rt: Runtime) returns (r: Response)
      requires Valid()
      modifies this
      ensures Valid()
      ensures testResults == old(testResults) && uploads == old(uploads)
      ensures IndexOf(old(models), id).None? ==>
        r == Error(404, ModelNotFound, None) && models == old(models)
      ensures IndexOf(old(models), id).Some? ==>
        var i := IndexOf(old(models), id).value;
        var m := old(models)[i];
        var call := if m.status == Running then StopContainer(m.containerName, rt) else StartContainer(m, rt);
        if call.Pass? then
          models == old(models)[i := m.(status := Toggled(m.status))] && r == ModelToggled(models[i])
        else
          models == old(models) && r == Error(500, ToggleFailed, Some(call.message))
    {
      var found := IndexOf(models, id);
      if found.None? {
        return Error(404, ModelNotFound, None);
      }
      var i := found.value;
      var m := models[i];
      var call: Outcome;
      if m.status == Running {
        call := StopContainer(m.containerName, rt);
      } else {
        call := StartContainer(m, rt);
      }
      if call.Fail? {
        return Error(500, ToggleFailed, Some(call.message));
      }
      var updated := m.(status := Toggled(m.status));
      ReplaceKeepsValid(models, i, updated);
      models := models[i := updated];
      r := ModelToggled(updated);
    }

    /**
     * DELETE /api/models/:id. A running model is stopped first, and a failed
     * stop aborts the request with the record still present. Container and
     * image removal only log their failures. A failed unlink of the archive
     * aborts too. Otherwise exactly that record is spliced out.
     */
    method Delete(id: string, rt: Runtime, unlink: Outcome) returns (r: Response)
      requires Valid()
      modifies this
      ensures Valid()
      ensures testResults == old(testResults)
      ensures IndexOf(old(models), id).None? ==>
        r == Error(404, ModelNotFound, None) && models == old(models) && uploads == old(uploads)
      ensures IndexOf(old(models), id).Some? ==>
        var i := IndexOf(old(models), id).value;
        var m := old(models)[i];
        var stop := if m.status == Running then StopContainer(m.containerName, rt) else Pass;
        var unlinked := if m.filePath in old(uploads) then unlink else Pass;
        if stop.Fail? then
          r == Error(500, DeleteFailed, Some(stop.message)) && models == old(models) && uploads == old(uploads)
        else if unlinked.Fail? then
          r == Error(500, DeleteFailed, Some(unlinked.message)) && models == old(models) && uploads == old(uploads)
        else
          r == ModelDeleted && models == Splice(old(models), i) && uploads == old(uploads) - {m.filePath}
    {
      var found := IndexOf(models, id);
      if found.None? {
        return Error(404, ModelNotFound, None);
      }
      var i := found.value;
      var m := models[i];
      if m.status == Running {
        var stop := StopContainer(m.containerName, rt);
        if stop.Fail? {
          return Error(500, DeleteFailed, Some(stop.message));
        }
      }
      // Best-effort cleanup: what these log does not affect the outcome.
      var containerLog := RemoveContainer(m.containerName, rt);
      var imageLog := RemoveImage(m.imageName, rt);
      if m.filePath in uploads {
        if unlink.Fail? {
          return Error(500, DeleteFailed, Some(unlink.message));
        }
        uploads := uploads - {m.filePath};
      }
      SpliceKeepsUnique(models, i);
      models := Splice(models, i);
      r := ModelDeleted;
    }

    /**
     * POST /api/test/:id. The images stay on disk whatever happens. An
     * unknown id, a model that is not running, or no images is refused with
     * nothing recorded; otherwise each image is tested in order, its result
     * appended to the log, and the model's image count grows by the number
     * of images.
     */
    method RunTest(id: string, images: seq<UploadedFile>, world: nat -> Attempt) returns (r: Response)
      requires Valid()
      modifies this
      ensures Valid()
      ensures uploads == old(uploads) + PathsOf(images)
      ensures var found := IndexOf(old(models), id);
        if found.None? then
          r == Error(404, ModelNotFound, None) && models == old(models) && testResults == old(testResults)
        else if old(models)[found.value].status != Running then
          r == Error(400, MustBeRunning, None) && models == old(models) && testResults == old(testResults)
        else if |images| == 0 then
          r == Error(400, NoImages, None) && models == old(models) && testResults == old(testResults)
        else
          var m := old(models)[found.value];
          && r == TestsRun(Batch(m, images, world))
          && testResults == old(testResults) + r.results
          && models == old(models)[found.value := m.(imageCount := m.imageCount + |images|)]
    {
      uploads := uploads + PathsOf(images);
      assert models == old(models) && testResults == old(testResults);
      var found := IndexOf(models, id);
      if found.None? {
        return Error(404, ModelNotFound, None);
      }
      var i := found.value;
      var model := models[i];
      if model.status != Running {
        return Error(400, MustBeRunning, None);
      }
      if |images| == 0 {
        return Error(400, NoImages, None);
      }
      var results := TestEach(model, images, world);
      var updated := model.(imageCount := model.imageCount + |images|);
      ReplaceKeepsValid(models, i, updated);
      models := models[i := updated];
      r := TestsRun(results);
    }

    /**
     * The loop of POST /api/test/:id: test each image in order against
     * `model`, appending each result to the log as soon as it is produced.
     */
    method TestEach(model: Model, images: seq<UploadedFile>, world: nat -> Attempt)
      returns (results: seq<TestResult>)
      modifies this`testResults
      ensures results == Batch(model, images, world)
      ensures testResults == old(testResults) + results
    {
      results := [];
      var k := 0;
      while k < |images|
        invariant 0 <= k <= |images|
        invariant results == Batch(model, images[..k], world)
        invariant testResults == old(testResults) + results
      {
        var result := RunInference(model, images[k], world(k));
        BatchSnoc(model, images, k, world);
        results := results + [result];
        testResults := testResults + [result];
        k := k + 1;
      }
      assert images[..k] == images;
    }
  }
}
