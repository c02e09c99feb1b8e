# DockerTester backend and upload list, modelled in Dafny

This project models the core of DockerTester. DockerTester lets an operator upload a
container build archive as an inference "model", build it into an image, start and
stop its container, send test images to its HTTP inference endpoint, and read
integer statistics over the results. There are two cores:

- **The backend request handlers** (`server/index.js`). Two module-level lists hold
  the state: the model registry `models` and the result log `testResults`. Four
  handlers drive a per-model `stopped`/`running` state machine over them: deploy,
  toggle, delete and test. The class `Server.ModelServer` holds these two lists as
  `seq` fields, plus the set `uploads` of files the upload middleware has written
  to disk. Each handler is a method that changes those fields. Every outcome is
  stated in its `ensures`: the HTTP status and message on error, the new
  registry and log on success (for a deploy, every field of the appended record;
  the id, creation date and container size are parameters), and what stays
  unchanged. The object invariant
  `Valid()` holds across all handlers. It says ids are unique and every record's
  container and image names are derived from its id.
- **The container-runtime helpers** (`docker.dfy`) and `runInference`
  (`inference.dfy`). These are functions over oracle answers. A `Runtime` value
  holds what Docker answers to each call of one request. An `Attempt` holds what
  the network, uuid and the clock yield for one test image. What the model keeps
  is each helper's control flow and error policy. `stopContainer` and
  `startContainer` rethrow failures with a prefix. `removeContainer` and
  `removeImage` only log. `runInference` never throws.
- **The integer counts of the analytics report** (`analytics.dfy`): total and
  running models, total and completed results, and results per model name. They
  come with lemmas that tie them to reference definitions and to the handlers'
  effects.
- **The file-list updates of the upload widget** (`file_upload.dfy`,
  `src/components/ui/file-upload.tsx`). Dropping files appends to the list or
  replaces it. Removing a file filters out one index. The listener
  `onFilesChange` receives exactly the new list.

`scenarios.dfy` is a client. It deploys, starts, tests with one answering and one
unreachable image, and deletes (first with a failing stop, then for real, then
again). Its assertions follow from the handlers' contracts alone.

Where the code behaves differently from what a caller would expect, the model follows the code:

- A failed image build leaves the uploaded archive on disk. `Deploy` keeps its
  path in `uploads`, and the catch block does no cleanup.
- Deleting a running model whose container stop fails aborts with 500 before the
  record is spliced out, so the record stays, although a caller
  would expect a delete to remove it. Only container and image removal are best-effort. A failing
  `unlinkSync` of the archive also aborts with the record kept.
- An inference reply is `completed` whenever its body parses as a JSON object,
  whatever the HTTP status. There is no `response.ok` check. A body that parses
  as JSON `null` makes the field access throw, so that result is `failed`. The confidence of a completed
  result is the reported one, or a random draw when it is missing or 0. It is not
  confined to [0, 100].

## Model

| member | source | states |
|---|---|---|
| Registry.PortOrDefault | server/index.js:77 | the port is 8080 exactly when the form field is missing or empty, otherwise the text sent |
| Registry.EndpointOrDefault | server/index.js:78 | the endpoint is never empty: the text sent, or `/predict` when missing or empty |
| Registry.ContainerNameFor | server/index.js:59 | the container name is `model-` followed by the id, which can be read back from it |
| Registry.ContainerNameInjective | server/index.js:58-59 | distinct ids give distinct container names, so there is at most one container name per model id |
| Registry.IndexOf | server/index.js:99 | `find`/`findIndex` by id: the first position holding the id, and None exactly when no record has it |
| Registry.IndexOfUnique | server/index.js:128 | with unique ids, looking up record i's id finds position i |
| Registry.Splice | server/index.js:150 | `splice(i, 1)`: one element shorter, the records before i unchanged, the records after i shifted down by one |
| Registry.SpliceKeepsUnique | server/index.js:150 | removing a record keeps the ids unique |
| Registry.SplicedIdGone | server/index.js:128-131 | after the splice the deleted id is not found (a repeated delete is a 404) and every other record still is |
| Registry.AppendFreshKeepsUnique | server/index.js:58-82 | pushing a record with a fresh id keeps the ids unique |
| Registry.ReplaceKeepsIds | server/index.js:107-110 | updating a record in place under the same id keeps the ids unique and every lookup's answer |
| Docker.ImageNameFor | server/index.js:218 | the image name is the container name followed by `:latest` |
| Docker.FindContainer | server/index.js:256 | the first listing entry known as `/<name>`, and None exactly when no entry is |
| Docker.LoadDockerImage | server/index.js:215-229 | succeeds exactly when the build does, yielding `<name>:latest`; otherwise fails with "Failed to load Docker image: " and the build's message |
| Docker.StartContainer | server/index.js:231-251 | succeeds exactly when both create and start succeed; a create failure is reported even if start would have failed |
| Docker.StopContainer | server/index.js:253-264 | succeeds exactly when the listing works and either no running container has the name or its stop succeeds; failures are rethrown with "Failed to stop container: " |
| Docker.RemoveContainer | server/index.js:266-277 | never throws; logs exactly when the listing fails or a present container fails to be removed |
| Docker.RemoveImage | server/index.js:279-286 | never throws; logs exactly when the image removal fails |
| Docker.StopAbsentIsNoOp | server/index.js:256-260 | stopping a name that no running container has succeeds whatever the stop call would answer |
| Inference.PredictionOrUnknown | server/index.js:309 | the prediction label is never empty: the reported one, or `Unknown` |
| Inference.ConfidenceOrDraw | server/index.js:308 | the confidence is the reported one unless it is missing or 0, in which case it is the random draw |
| Inference.RunInference | server/index.js:288-327 | never throws: completed exactly when a JSON reply came, failed otherwise with confidence 0, prediction `Error`, time 0 and the message; the result carries the image's and the model's names |
| Inference.Batch | server/index.js:182-187 | a batch of N images yields exactly N results |
| Inference.BatchAt | server/index.js:183-186 | the k-th result of a batch is that of the k-th image, so input order is kept |
| Inference.BatchSnoc | server/index.js:183-187 | testing one more image appends exactly its result |
| Analytics.CountRunning | server/index.js:363 | the number of running models is at most the number of models; `CountRunningIsRunningIndices` gives its value |
| Analytics.CountNamed | server/index.js:371 | the number of results for a name is at most the number of results; `CountNamedIsNamedIndices` gives its value |
| Analytics.CountCompleted | server/index.js:358 | the number of completed results is at most the number of results; `CountCompletedIsCompletedIndices` gives its value |
| Analytics.GenerateAnalytics | server/index.js:347-374 | `totalModels` and `totalTests` are the lengths; `activeModels` is the number of running positions and the completed count the number of completed positions; there is one per-model entry in registry order with that model's name, status and accuracy, and `tests` equal to the number of results carrying its name |
| Analytics.CountRunningIsRunningIndices | server/index.js:363 | `activeModels` equals the number of positions whose model has status `running` |
| Analytics.CountNamedIsNamedIndices | server/index.js:371 | a model's `tests` equals the number of positions of the log whose result carries its name |
| Analytics.CountCompletedIsCompletedIndices | server/index.js:358 | the completed count equals the number of positions of the log whose result has status `completed` |
| Analytics.CountRunningUpdate | server/index.js:105-111 | changing one record's status changes `activeModels` by exactly what that record contributes before and after |
| Analytics.CountNamedAppend | server/index.js:186 | counting results by name distributes over appending to the log |
| Analytics.CountNamedBatch | server/index.js:182-187 | a batch for a model contributes N to that model's name and 0 to every other name |
| Analytics.TestsAfterBatch | server/index.js:186 | after a test batch of N images, `totalTests` grows by N, and a model's `tests` grows by N when it shares the tested model's name |
| Server.PathsOf | server/index.js:20-30 | every uploaded file's path is among the paths stored on disk |
| Server.PathsOfOnlyFiles | server/index.js:20-30 | every stored path is the path of one of the uploaded files |
| Server.Toggled | server/index.js:105-111 | a successful toggle always changes the status |
| Server.ToggleTwiceRestores | server/index.js:105-111 | two successful toggles give back the registry exactly as it was |
| Server.ReplaceKeepsValid | server/index.js:107-110 | an in-place status or count update keeps ids unique, names derived from ids, and every lookup |
| Server.ModelServer.constructor | server/index.js:38-39 | the registry and the result log start empty |
| Server.ModelServer.Deploy | server/index.js:49-93 | no file gives 400 and a failed build gives 500, with the registry unchanged in both cases; success appends exactly one record with every field fixed (id, names, `stopped`, accuracy 0, `0ms`, the creation date, count 0, the container size, port and endpoint defaults, file path) after the unchanged earlier ones; the archive stays on disk in every case |
| Server.ModelServer.Toggle | server/index.js:96-122 | an unknown id gives 404 with nothing changed; a running model becomes `stopped` only if the stop succeeds, any other becomes `running` only if the start succeeds; on failure gives 500 with the registry unchanged; nothing else changes |
| Server.ModelServer.Delete | server/index.js:125-160 | an unknown id gives 404; a failing stop of a running model, or a failing unlink, gives 500 and keeps the record; otherwise exactly that record is removed, the others keep their order, and the archive leaves the disk, whatever container and image removal answered |
| Server.ModelServer.RunTest | server/index.js:163-201 | an unknown id gives 404, a model that is not running or no images gives 400, with nothing appended and no count changed; otherwise the N results in input order are returned and appended to the log, and only that model's `image_count` grows by N |
| Server.ModelServer.TestEach | server/index.js:182-187 | the loop appends the batch's results to the log in order and returns them |
| FileUpload.Publish | src/components/ui/file-upload.tsx:29-30 | the listener, when there is one, receives exactly the list stored as the new state |
| FileUpload.OnDrop | src/components/ui/file-upload.tsx:26-32 | with `multiple` true the new list is the previous one followed by the accepted files; otherwise (including the default) it is exactly the accepted files; the listener gets the same list |
| FileUpload.WithoutIndex | src/components/ui/file-upload.tsx:36 | filtering out one index shortens the list by one exactly when the index is in range |
| FileUpload.WithoutIndexInRange | src/components/ui/file-upload.tsx:36 | with the index in range the filter yields the list without that element, the rest in order |
| FileUpload.WithoutIndexOutOfRange | src/components/ui/file-upload.tsx:36 | with the index out of range the filter yields the list unchanged |
| FileUpload.RemoveFile | src/components/ui/file-upload.tsx:34-40 | removeFile drops exactly the element at an in-range index and keeps an out-of-range list unchanged; the listener gets the same list |
| FileUpload.RemoveFileShifts | src/components/ui/file-upload.tsx:34-36 | after removing position i, the elements before i stay put and the later ones move down by one |
| FileUpload.DropThenRemoveLast | src/components/ui/file-upload.tsx:28-36 | dropping one file in multiple mode and then removing it gives back the previous list |
| Scenarios.DeployAndStart | server/index.js:49-122 | deploying and then toggling a fresh model leaves exactly one record, and it is running |
| Scenarios.TestTwoImages | server/index.js:163-201 | testing a running model with an answering and an unreachable image appends a completed and then a failed result, and the model's count grows by 2 |
| Scenarios.DeleteRunning | server/index.js:125-160 | a delete whose stop fails gives 500 and keeps the record; a second with a working runtime deletes it even though image removal fails; a third is a 404; the registry ends empty and the log is untouched |

## Left out

- The Docker API, `fetch` to the model container and the `fs`/multer file handling are foreign I/O. Each call is an oracle answer: success, or failure with a message.
- The container configuration that `startContainer` sends (image, name, and the `<port>/tcp` exposure and binding) is not modelled. Whether create succeeds is the runtime's answer. That includes the case where a container of the same name is still there from an earlier start: `stopContainer` stops it but does not remove it.
- uuid generation is not modelled. `Deploy` is given the new id and requires it to be absent from the registry. The upload middleware's generated file names are not modelled either.
- `Date.now()`, the `created` date and the timestamps are not modelled. They are given as parameters, and the inference time is kept as a number of milliseconds rather than the string `"<n>ms"`.
- Floating point is not modelled: `getFileSize` (its result is a parameter), and the averages, success rate and rounding of `generateAnalytics`. `Math.random()` is a draw passed in with the reply.
- A reported confidence that is not a number is not modelled: a NaN, or a non-number value such as a string, which is truthy and stored as it is. `Option<real>` holds only numbers. A JSON prediction that is not a string is not modelled either.
- Express routing, CORS, static serving and the success messages of the JSON responses are not modelled. The GET routes for models and test results just return the `models` and `testResults` fields as they are.
- `console.error` logging is not modelled as state. `RemoveContainer` and `RemoveImage` return the message they would log, and `Delete` discards it, as the source does.
- Concurrent requests interleaving at `await` points are not modelled. Each handler is one atomic step. Runtime effects that happen before a later failure are not recorded as state: for example, a container removed before an `unlinkSync` fails.
- Model records are values in a sequence. The source assigns `model.status` and `model.image_count` in place; here the record at that index is replaced. Aliasing between the stored record and the response object is not captured.
- Server.ModelServer.TestEach: the `for` loop of the test handler is a separate method so that each proof stays small. The handler calls it at the point where the loop stands.
- The size limit of multer uploads (5 GB) and the widget's `accept`/`maxSize` filtering by react-dropzone are not modelled. The list of accepted files is an input.
- React's scheduling of `setFiles` updaters is not modelled. Each update is applied to the latest list.
- The `processing` result status appears only in the UI and is never produced by the backend.
