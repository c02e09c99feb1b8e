/**
 * The records the backend keeps in memory (server/index.js): deployed models
 * and inference results, the defaults a deploy request falls back on, and
 * the lookups and removals the request handlers perform on the model list.
 */
module Registry {
  import opened Wrappers

  /** Lifecycle state of a model; the source stores 'stopped' or 'running'. */
  datatype Status = Stopped | Running

  /** Outcome of one inference attempt; the source stores 'completed' or 'failed'. */
  datatype ResultStatus = Completed | Failed

  /** A text field of a multipart form body: absent (undefined) or the text sent. */
  datatype FormField = Absent | Text(value: string)

  /** A file that the upload middleware has stored on disk. */
  datatype UploadedFile = UploadedFile(originalName: string, path: string)

  /** JavaScript truthiness of a form field: undefined and "" are falsy. */
  predicate Truthy(f: FormField) {
    f.Text? && f.value != ""
  }

  /**
   * The port a model record holds: the form text as sent, or the number
   * 8080 put in by `port || 8080`.
   */
  datatype PortSetting = PortText(text: string) | PortNumber(number: nat)

  const DefaultPort: nat := 8080
  const DefaultEndpoint: string := "/predict"
  const ContainerPrefix: string := "model-"

  /** One deployed model, as pushed onto `models`. */
  datatype Model = Model(
    id: string,
    name: FormField,
    description: FormField,
    status: Status,
    accuracy: int,
    inferenceTime: string,
    created: string,
    imageCount: nat,
    containerSize: string,
    containerName: string,
    imageName: string,
    port: PortSetting,
    endpoint: string,
    filePath: string)

  /**
   * One inference outcome, as pushed onto `testResults`. `model` is the
   * model's name at test time; `inferenceTimeMs` is the number rendered as
   * "<n>ms" in the source.
   */
  datatype TestResult = TestResult(
    id: string,
    filename: string,
    model: FormField,
    confidence: real,
    prediction: string,
    inferenceTimeMs: nat,
    status: ResultStatus,
    timestamp: string,
    error: Option<string>)

  /** `port || 8080`: the port of a new model record. */
  function PortOrDefault(port: FormField): (p: PortSetting)
    ensures p == PortNumber(DefaultPort) <==> !Truthy(port)
    ensures Truthy(port) ==> p.PortText? && p.text == port.value
  {
    if Truthy(port) then PortText(port.value) else PortNumber(DefaultPort)
  }

  /** `endpoint || '/predict'`: the inference route of a new model record. */
  function EndpointOrDefault(endpoint: FormField): (e: string)
    ensures e != ""
    ensures Truthy(endpoint) ==> e == endpoint.value
    ensures !Truthy(endpoint) ==> e == DefaultEndpoint
  {
    if Truthy(endpoint) then endpoint.value else DefaultEndpoint
  }

  /** `model-${modelId}`: the container name derived from a model id. */
  function ContainerNameFor(id: string): (name: string)
    ensures |name| == |ContainerPrefix| + |id|
    ensures name[..|ContainerPrefix|] == ContainerPrefix && name[|ContainerPrefix|..] == id
  {
    ContainerPrefix + id
  }

  /** Distinct ids yield distinct container names: at most one container per model id. */
  lemma ContainerNameInjective(a: string, b: string)
    requires ContainerNameFor(a) == ContainerNameFor(b)
    ensures a == b
  {
  }

  /** No two records of the list share an id. */
  ghost predicate UniqueIds(models: seq<Model>) {
    forall i, j :: 0 <= i < j < |models| ==> models[i].id != models[j].id
  }

  /**
   * `models.findIndex(m => m.id === id)` (and `models.find`): the position
   * of the first record with this id, or None when there is none.
   */
  function IndexOf(models: seq<Model>, id: string): (r: Option<nat>)
    ensures r.Some? ==> r.value < |models| && models[r.value].id == id
    ensures r.Some? ==> forall j :: 0 <= j < r.value ==> models[j].id != id
    ensures r.None? <==> forall j :: 0 <= j < |models| ==> models[j].id != id
  {
    if |models| == 0 then None
    else if models[0].id == id then Some(0)
    else
      match IndexOf(models[1..], id)
      case None => None
      case Some(k) => Some(k + 1)
  }

  /** With unique ids, looking up the id of record i finds exactly record i. */
  lemma IndexOfUnique(models: seq<Model>, i: nat)
    requires UniqueIds(models)
    requires i < |models|
    ensures IndexOf(models, models[i].id) == Some(i)
  {
  }

  /** `models.splice(i, 1)`: the list without the record at position i. */
  function Splice(models: seq<Model>, i: nat): (r: seq<Model>)
    requires i < |models|
    ensures |r| == |models| - 1
    ensures forall j :: 0 <= j < i ==> r[j] == models[j]
    ensures forall j :: i <= j < |r| ==> r[j] == models[j + 1]
  {
    models[..i] + models[i + 1..]
  }

  /** Splicing a record out keeps the ids unique. */
  lemma SpliceKeepsUnique(models: seq<Model>, i: nat)
    requires UniqueIds(models) && i < |models|
    ensures UniqueIds(Splice(models, i))
  {
  }

  /**
   * After splicing record i out of a list with unique ids, its id is no
   * longer found and every other record is still found.
   */
  lemma SplicedIdGone(models: seq<Model>, i: nat)
    requires UniqueIds(models) && i < |models|
    ensures IndexOf(Splice(models, i), models[i].id).None?
    ensures forall j :: 0 <= j < |models| && j != i ==> IndexOf(Splice(models, i), models[j].id).Some?
  {
    var r := Splice(models, i);
    forall j | 0 <= j < |r|
      ensures r[j].id != models[i].id
    {
      if j < i {
        assert r[j] == models[j];
      } else {
        assert r[j] == models[j + 1];
      }
    }
    forall j | 0 <= j < |models| && j != i
      ensures IndexOf(r, models[j].id).Some?
    {
      var k := if j < i then j else j - 1;
      assert r[k] == models[j];
    }
  }

  /** Appending a record whose id is not yet present keeps the ids unique. */
  lemma AppendFreshKeepsUnique(models: seq<Model>, m: Model)
    requires UniqueIds(models) && IndexOf(models, m.id).None?
    ensures UniqueIds(models + [m])
  {
  }

  /** Replacing a record by one with the same id keeps the ids unique and every lookup. */
  lemma ReplaceKeepsIds(models: seq<Model>, i: nat, m: Model)
    requires UniqueIds(models) && i < |models| && m.id == models[i].id
    ensures UniqueIds(models[i := m])
    ensures forall id :: IndexOf(models[i := m], id) == IndexOf(models, id)
  {
    var r := models[i := m];
    assert forall j :: 0 <= j < |r| ==> r[j].id == models[j].id;
    forall id
      ensures IndexOf(r, id) == IndexOf(models, id)
    {
      var x, y := IndexOf(r, id), IndexOf(models, id);
      if x.Some? && y.Some? {
        assert x.value < y.value || y.value < x.value || x.value == y.value;
      }
    }
  }
}
