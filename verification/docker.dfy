/**
 * The container-runtime helpers of server/index.js (loadDockerImage,
 * startContainer, stopContainer, removeContainer, removeImage). The runtime
 * itself is an oracle: a `Runtime` value holds the answers it gives to the
 * calls one request makes. What the model keeps is each helper's control
 * flow and its error policy: which failures are rethrown with which message
 * and which are only logged.
 */
module Docker {
  import opened Wrappers
  import opened Registry

  /** One entry of the runtime's container listing: the names it goes by, each with a leading '/'. */
  datatype ContainerEntry = ContainerEntry(names: seq<string>)

  /** The answer to `docker.container.list(...)`. */
  datatype Listing = Listed(entries: seq<ContainerEntry>) | ListFailed(message: string)

  /** The answers the container runtime gives to the calls one request makes. */
  datatype Runtime = Runtime(
    build: Outcome,            // docker.image.build
    create: Outcome,           // docker.container.create
    start: Outcome,            // container.start
    runningList: Listing,      // docker.container.list()
    stop: Outcome,             // container.stop
    allList: Listing,          // docker.container.list({ all: true })
    removeContainer: Outcome,  // container.remove({ force: true })
    removeImage: Outcome)      // image.remove({ force: true })

  const ImageTag: string := ":latest"
  const LoadImageError: string := "Failed to load Docker image: "
  const StartError: string := "Failed to start container: "
  const StopError: string := "Failed to stop container: "
  const RemoveContainerError: string := "Failed to remove container: "
  const RemoveImageError: string := "Failed to remove image: "

  /** `${containerName}:latest`: the tag the image is built under. */
  function ImageNameFor(containerName: string): (image: string)
    ensures |image| == |containerName| + |ImageTag|
    ensures image[..|containerName|] == containerName && image[|containerName|..] == ImageTag
  {
    containerName + ImageTag
  }

  /** The listing entry is known by the name `/<containerName>`. */
  predicate HasName(entry: ContainerEntry, containerName: string) {
    "/" + containerName in entry.names
  }

  /** `containers.find(c => c.data.Names.includes('/' + name))`: the first entry known by this name. */
  function FindContainer(entries: seq<ContainerEntry>, containerName: string): (r: Option<nat>)
    ensures r.Some? ==> r.value < |entries| && HasName(entries[r.value], containerName)
    ensures r.Some? ==> forall j :: 0 <= j < r.value ==> !HasName(entries[j], containerName)
    ensures r.None? <==> forall j :: 0 <= j < |entries| ==> !HasName(entries[j], containerName)
  {
    if |entries| == 0 then None
    else if HasName(entries[0], containerName) then Some(0)
    else
      match FindContainer(entries[1..], containerName)
      case None => None
      case Some(k) => Some(k + 1)
  }

  /**
   * loadDockerImage: build the uploaded archive under `<containerName>:latest`
   * and return that name; a failed build is rethrown with its own prefix.
   */
  function LoadDockerImage(containerName: string, rt: Runtime): (r: Result<string>)
    ensures r.Success? <==> rt.build.Pass?
    ensures r.Success? ==> r.value == ImageNameFor(containerName)
    ensures r.Failure? ==> r.message == LoadImageError + rt.build.message
  {
    match rt.build
    case Pass => Success(ImageNameFor(containerName))
    case Fail(msg) => Failure(LoadImageError + msg)
  }

  /**
   * startContainer: create a container from the model's image and start it.
   * A failure of either call is rethrown; start is only reached after a
   * successful create.
   */
  function StartContainer(model: Model, rt: Runtime): (r: Outcome)
    ensures r.Pass? <==> rt.create.Pass? && rt.start.Pass?
    ensures rt.create.Fail? ==> r == Fail(StartError + rt.create.message)
    ensures rt.create.Pass? && rt.start.Fail? ==> r == Fail(StartError + rt.start.message)
  {
    if rt.create.Fail? then Fail(StartError + rt.create.message)
    else if rt.start.Fail? then Fail(StartError + rt.start.message)
    else Pass
  }

  /**
   * stopContainer: look the container up among the running ones and stop it
   * if present. A failed listing or a failed stop is rethrown; a container
   * that is not running is no error.
   */
  function StopContainer(containerName: string, rt: Runtime): (r: Outcome)
    ensures r.Pass? <==>
      rt.runningList.Listed? &&
      (FindContainer(rt.runningList.entries, containerName).None? || rt.stop.Pass?)
    ensures r.Fail? ==> StopError <= r.message
  {
    match rt.runningList
    case ListFailed(msg) => Fail(StopError + msg)
    case Listed(entries) =>
      if FindContainer(entries, containerName).None? then Pass
      else if rt.stop.Fail? then Fail(StopError + rt.stop.message)
      else Pass
  }

  /**
   * removeContainer: look the container up among all containers and
   * force-remove it if present. It never throws: the result is the message
   * it logs, or None when nothing went wrong.
   */
  function RemoveContainer(containerName: string, rt: Runtime): (logged: Option<string>)
    ensures logged.None? <==>
      rt.allList.Listed? &&
      (FindContainer(rt.allList.entries, containerName).None? || rt.removeContainer.Pass?)
    ensures logged.Some? ==> RemoveContainerError <= logged.value
  {
    match rt.allList
    case ListFailed(msg) => Some(RemoveContainerError + msg)
    case Listed(entries) =>
      if FindContainer(entries, containerName).None? then None
      else if rt.removeContainer.Fail? then Some(RemoveContainerError + rt.removeContainer.message)
      else None
  }

  /**
   * removeImage: force-remove the image by name. It never throws: the result
   * is the message it logs, or None when the removal succeeded.
   */
  function RemoveImage(imageName: string, rt: Runtime): (logged: Option<string>)
    ensures logged.None? <==> rt.removeImage.Pass?
    ensures logged.Some? ==> logged.value == RemoveImageError + rt.removeImage.message
  {
    if rt.removeImage.Fail? then Some(RemoveImageError + rt.removeImage.message) else None
  }

  /**
   * Stopping a container that is not among the running ones succeeds and
   * does not depend on what the stop call would have answered.
   */
  lemma StopAbsentIsNoOp(containerName: string, rt: Runtime, stop: Outcome)
    requires rt.runningList.Listed?
    requires forall j :: 0 <= j < |rt.runningList.entries| ==> !HasName(rt.runningList.entries[j], containerName)
    ensures StopContainer(containerName, rt) == Pass
    ensures StopContainer(containerName, rt.(stop := stop)) == Pass
  {
  }
}
