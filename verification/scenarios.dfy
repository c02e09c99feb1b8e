/**
 * A client of the request handlers: one model's life from deploy to
 * delete, with the runtime answering as stated at each step. Everything
 * asserted here follows from the handlers' contracts alone.
 */
module Scenarios {
  import opened Wrappers
  import opened Registry
  import opened Docker
  import opened Inference
  import opened Server

  const Healthy: Runtime := Runtime(Pass, Pass, Pass, Listed([]), Pass, Listed([]), Pass, Pass)

  /** Deploy: one stopped record with the derived names and the default endpoint; then start it. */
  method DeployAndStart() returns (server: ModelServer)
    ensures server.Valid() && |server.models| == 1
    ensures server.models[0].id == "m1" && server.models[0].status == Running
  {
    server := new ModelServer();
    var archive := UploadedFile("detector.tar", "uploads/u1-detector.tar");
    var req := DeployRequest(Text("detector"), Absent, Text("8080"), Absent, Some(archive));
    var r := server.Deploy(req, "m1", Healthy, "0.5 GB", "2024-05-01");
    assert r.ModelDeployed?;
    assert server.models == [r.model] && r.model.status == Stopped;
    assert r.model.endpoint == "/predict" && r.model.containerName == "model-m1";
    assert "uploads/u1-detector.tar" in server.uploads;
    r := server.Toggle("m1", Healthy);
    assert r.ModelToggled? && server.models[0].status == Running;
  }

  /** Test two images: the first answers, the second cannot be reached. */
  method TestTwoImages(server: ModelServer)
    requires server.Valid() && |server.models| == 1
    requires server.models[0].id == "m1" && server.models[0].status == Running
    modifies server
    ensures server.Valid() && |server.models| == 1 && server.models[0].status == Running
    ensures server.models[0].imageCount == old(server.models[0].imageCount) + 2
    ensures |server.testResults| == |old(server.testResults)| + 2
    ensures server.testResults[|server.testResults| - 2].status == Completed
    ensures server.testResults[|server.testResults| - 1].status == Failed
  {
    var before := server.models[0].imageCount;
    var img1 := UploadedFile("cat.jpg", "uploads/u2-cat.jpg");
    var img2 := UploadedFile("dog.jpg", "uploads/u3-dog.jpg");
    var world := (k: nat) =>
      if k == 0 then Attempt("r1", "2024-05-01 10:00:00", Answered(42, Some("cat"), Some(91.2), 0.0))
      else Attempt("r2", "2024-05-01 10:00:01", Threw("connect ECONNREFUSED"));
    var r := server.RunTest("m1", [img1, img2], world);
    assert r.TestsRun? && |r.results| == 2;
    assert r.results[0].status == Completed && r.results[0].prediction == "cat" && r.results[0].confidence == 91.2;
    assert r.results[1].status == Failed && r.results[1].prediction == "Error" && r.results[1].confidence == 0.0;
    assert server.models[0].imageCount == before + 2;
  }

  /**
   * Delete while the runtime cannot stop the running container: the record
   * stays. Delete again with a healthy runtime: it goes, whatever image
   * removal answers. A third delete finds nothing.
   */
  method DeleteRunning(server: ModelServer) returns (first: Response, second: Response, third: Response)
    requires server.Valid() && |server.models| == 1
    requires server.models[0].id == "m1" && server.models[0].status == Running
    modifies server
    ensures first.Error? && first.code == 500
    ensures second == ModelDeleted && third == Error(404, ModelNotFound, None)
    ensures server.Valid() && server.models == []
    ensures server.testResults == old(server.testResults)
  {
    var running := [ContainerEntry(["/model-m1"])];
    assert WellNamed(server.models[0]) && server.models[0].containerName == "model-m1";
    assert "/" + "model-m1" == "/model-m1";
    assert HasName(running[0], server.models[0].containerName);
    var unreachable := Healthy.(runningList := Listed(running), stop := Fail("socket hang up"));
    first := server.Delete("m1", unreachable, Pass);
    assert |server.models| == 1;
    second := server.Delete("m1", Healthy.(runningList := Listed(running), removeImage := Fail("No such image")), Pass);
    third := server.Delete("m1", Healthy, Pass);
  }
}
