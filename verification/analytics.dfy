/**
 * The integer part of generateAnalytics (server/index.js): how many models
 * there are and how many run, how many results there are and how many
 * completed, and how many results carry each model's name. The averages
 * and the success rate are floating-point and are not part of this model.
 */
module Analytics {
  import opened Registry
  import opened Inference

  /** `models.filter(m => m.status === 'running').length` */
  function CountRunning(models: seq<Model>): (n: nat)
    ensures n <= |models|
    decreases |models|
  {
    if |models| == 0 then 0
    else
      var last := |models| - 1;
      CountRunning(models[..last]) + (if models[last].status == Running then 1 else 0)
  }

  /** `testResults.filter(r => r.model === name).length` */
  function CountNamed(results: seq<TestResult>, name: FormField): (n: nat)
    ensures n <= |results|
    decreases |results|
  {
    if |results| == 0 then 0
    else
      var last := |results| - 1;
      CountNamed(results[..last], name) + (if results[last].model == name then 1 else 0)
  }

  /** `testResults.filter(r => r.status === 'completed').length` */
  function CountCompleted(results: seq<TestResult>): (n: nat)
    ensures n <= |results|
    decreases |results|
  {
    if |results| == 0 then 0
    else
      var last := |results| - 1;
      CountCompleted(results[..last]) + (if results[last].status == Completed then 1 else 0)
  }

  /** One entry of the per-model table of the analytics report. */
  datatype ModelStats = ModelStats(name: FormField, accuracy: int, tests: nat, status: Status)

  /**
   * The integer fields of the analytics report; `completedTests` is the
   * numerator of the success rate.
   */
  datatype Report = Report(
    totalModels: nat,
    activeModels: nat,
    totalTests: nat,
    completedTests: nat,
    models: seq<ModelStats>)

  /** The positions of the running models: the reference meaning of `activeModels`. */
  ghost function RunningIndices(models: seq<Model>): set<nat> {
    set i: nat | i < |models| && models[i].status == Running
  }

  /** The positions of the results carrying `name`: the reference meaning of a model's `tests`. */
  ghost function NamedIndices(results: seq<TestResult>, name: FormField): set<nat> {
    set i: nat | i < |results| && results[i].model == name
  }

  /** The positions of the completed results: the reference meaning of the success-rate numerator. */
  ghost function CompletedIndices(results: seq<TestResult>): set<nat> {
    set i: nat | i < |results| && results[i].status == Completed
  }

  /**
   * generateAnalytics, restricted to its integer counts: each count is the
   * number of positions satisfying its filter.
   */
  function GenerateAnalytics(models: seq<Model>, results: seq<TestResult>): (a: Report)
    ensures a.totalModels == |models| && a.activeModels == |RunningIndices(models)|
    ensures a.totalTests == |results| && a.completedTests == |CompletedIndices(results)|
    ensures a.activeModels <= a.totalModels && a.completedTests <= a.totalTests
    ensures |a.models| == |models|
    ensures forall i :: 0 <= i < |models| ==>
      a.models[i].name == models[i].name && a.models[i].status == models[i].status &&
      a.models[i].accuracy == models[i].accuracy &&
      a.models[i].tests == |NamedIndices(results, models[i].name)| && a.models[i].tests <= a.totalTests
  {
    assert CountRunning(models) == |RunningIndices(models)| by {
      CountRunningIsRunningIndices(models);
    }
    assert CountCompleted(results) == |CompletedIndices(results)| by {
      CountCompletedIsCompletedIndices(results);
    }
    assert forall i :: 0 <= i < |models| ==> CountNamed(results, models[i].name) == |NamedIndices(results, models[i].name)| by {
      forall i | 0 <= i < |models|
        ensures CountNamed(results, models[i].name) == |NamedIndices(results, models[i].name)|
      {
        CountNamedIsNamedIndices(results, models[i].name);
      }
    }
    Report(
      |models|,
      CountRunning(models),
      |results|,
      CountCompleted(results),
      seq(|models|, i requires 0 <= i < |models| =>
        ModelStats(models[i].name, models[i].accuracy, CountNamed(results, models[i].name), models[i].status)))
  }

  /** `activeModels` is the number of positions whose model runs. */
  lemma {:induction false} CountRunningIsRunningIndices(models: seq<Model>)
    ensures CountRunning(models) == |RunningIndices(models)|
    decreases |models|
  {
    if |models| > 0 {
      var last := |models| - 1;
      var prefix := models[..last];
      CountRunningIsRunningIndices(prefix);
      if models[last].status == Running {
        assert RunningIndices(models) == RunningIndices(prefix) + {last};
        assert last !in RunningIndices(prefix);
      } else {
        assert RunningIndices(models) == RunningIndices(prefix);
      }
    } else {
      assert RunningIndices(models) == {};
    }
  }

  /** A model's `tests` is the number of positions whose result carries its name. */
  lemma {:induction false} CountNamedIsNamedIndices(results: seq<TestResult>, name: FormField)
    ensures CountNamed(results, name) == |NamedIndices(results, name)|
    decreases |results|
  {
    if |results| > 0 {
      var last := |results| - 1;
      var prefix := results[..last];
      CountNamedIsNamedIndices(prefix, name);
      if results[last].model == name {
        assert NamedIndices(results, name) == NamedIndices(prefix, name) + {last};
        assert last !in NamedIndices(prefix, name);
      } else {
        assert NamedIndices(results, name) == NamedIndices(prefix, name);
      }
    } else {
      assert NamedIndices(results, name) == {};
    }
  }

  /** The success-rate numerator is the number of positions whose result completed. */
  lemma {:induction false} CountCompletedIsCompletedIndices(results: seq<TestResult>)
    ensures CountCompleted(results) == |CompletedIndices(results)|
    decreases |results|
  {
    if |results| > 0 {
      var last := |results| - 1;
      var prefix := results[..last];
      CountCompletedIsCompletedIndices(prefix);
      if results[last].status == Completed {
        assert CompletedIndices(results) == CompletedIndices(prefix) + {last};
        assert last !in CompletedIndices(prefix);
      } else {
        assert CompletedIndices(results) == CompletedIndices(prefix);
      }
    } else {
      assert CompletedIndices(results) == {};
    }
  }

  /**
   * Changing the record at one position changes the running count only by
   * what that record contributes before and after.
   */
  lemma {:induction false} CountRunningUpdate(models: seq<Model>, i: nat, m: Model)
    requires i < |models|
    ensures CountRunning(models[i := m]) + (if models[i].status == Running then 1 else 0) ==
            CountRunning(models) + (if m.status == Running then 1 else 0)
    decreases |models|
  {
    var last := |models| - 1;
    var updated := models[i := m];
    if i == last {
      assert updated[..last] == models[..last];
    } else {
      assert updated[..last] == models[..last][i := m];
      CountRunningUpdate(models[..last], i, m);
    }
  }

  /** Counting by name distributes over appending results. */
  lemma {:induction false} CountNamedAppend(a: seq<TestResult>, b: seq<TestResult>, name: FormField)
    ensures CountNamed(a + b, name) == CountNamed(a, name) + CountNamed(b, name)
    decreases |b|
  {
    if |b| == 0 {
      assert a + b == a;
    } else {
      var last := |b| - 1;
      assert (a + b)[..|a + b| - 1] == a + b[..last];
      CountNamedAppend(a, b[..last], name);
    }
  }

  /** Every result of a batch carries the tested model's name, and no other. */
  lemma {:induction false} CountNamedBatch(model: Model, images: seq<UploadedFile>, world: nat -> Attempt, name: FormField)
    ensures CountNamed(Batch(model, images, world), name) == if name == model.name then |images| else 0
    decreases |images|
  {
    if |images| > 0 {
      var last := |images| - 1;
      var rs := Batch(model, images, world);
      assert rs[..last] == Batch(model, images[..last], world);
      CountNamedBatch(model, images[..last], world, name);
    }
  }

  /**
   * After a batch of N results for `model` is appended to the log, that
   * model's `tests` grows by N, every other name's stays the same, and
   * `totalTests` grows by N.
   */
  lemma TestsAfterBatch(models: seq<Model>, results: seq<TestResult>, model: Model,
                        images: seq<UploadedFile>, world: nat -> Attempt, i: nat)
    requires i < |models|
    ensures var before := GenerateAnalytics(models, results);
            var after := GenerateAnalytics(models, results + Batch(model, images, world));
            after.totalTests == before.totalTests + |images| &&
            after.models[i].tests ==
              before.models[i].tests + (if models[i].name == model.name then |images| else 0)
  {
    CountNamedAppend(results, Batch(model, images, world), models[i].name);
    CountNamedBatch(model, images, world, models[i].name);
  }
}
