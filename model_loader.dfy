/**
 * The load-once registry of trained models (backend/app/models_ml/model_loader.py, `MLModels`):
 * four artifacts read from the models directory in a fixed order, a flag set only once all
 * four are in, and getters that refuse to answer before that. Reading one artifact from disk
 * (`joblib.load`) is the parameter `load`, which gives the object or the exception it raised.
 */
module ModelLoader {
  import opened Wrappers

  const CLASSIFIER_FILE := "lgbm_classifier_balanced_v1.pkl"
  const MODEL_ARTIFACTS_FILE := "model_artifacts_v1.pkl"
  const ISOLATION_FOREST_FILE := "isolation_forest_v1.pkl"
  const ANOMALY_ARTIFACTS_FILE := "anomalies_artifacts_v1.pkl"

  /** The artifacts in the order `load_models` reads them. */
  const FILES: seq<string> := [CLASSIFIER_FILE, MODEL_ARTIFACTS_FILE, ISOLATION_FOREST_FILE, ANOMALY_ARTIFACTS_FILE]

  const NOT_LOADED := "Models not loaded. Call load_models() first."

  /** The exceptions that leave the registry: those of a failed read, re-raised, and the getters' own. */
  datatype Exception = FileNotFound(path: string) | LoadError(message: string) | RuntimeError(message: string)

  datatype Outcome<T> = Ok(value: T) | Raised(error: Exception)

  /** `models_path / name`. */
  function PathOf(dir: string, name: string): string {
    dir + "/" + name
  }

  /**
   * What reading the artifacts from `FILES[i..]` in order gives: the objects read until the
   * first failure, and that failure if there was one.
   */
  datatype Run<T> = Run(objects: seq<T>, failure: Option<Exception>)

  function ReadFrom<T>(load: string -> Outcome<T>, dir: string, i: nat): (run: Run<T>)
    requires i <= |FILES|
    ensures |run.objects| <= |FILES| - i
    decreases |FILES| - i
  {
    if i == |FILES| then Run([], None)
    else
      match load(PathOf(dir, FILES[i]))
      case Raised(e) => Run([], Some(e))
      case Ok(x) =>
        var rest := ReadFrom(load, dir, i + 1);
        Run([x] + rest.objects, rest.failure)
  }

  /** Reading all four artifacts. */
  function ReadAll<T>(load: string -> Outcome<T>, dir: string): Run<T> {
    ReadFrom(load, dir, 0)
  }

  /**
   * The run stops at the first failure: object `k` is what reading file `i + k` gave, the
   * run failed exactly when fewer than all were read, and then the failure is what reading
   * the next file raised.
   */
  lemma {:induction false} ReadFromSpec<T>(load: string -> Outcome<T>, dir: string, i: nat)
    requires i <= |FILES|
    ensures var run := ReadFrom(load, dir, i);
      && (forall k | 0 <= k < |run.objects| :: load(PathOf(dir, FILES[i + k])) == Ok(run.objects[k]))
      && (run.failure == None <==> |run.objects| == |FILES| - i)
      && (run.failure.Some? ==> load(PathOf(dir, FILES[i + |run.objects|])) == Raised(run.failure.value))
    decreases |FILES| - i
  {
    if i < |FILES| && load(PathOf(dir, FILES[i])).Ok? {
      ReadFromSpec(load, dir, i + 1);
      var run, rest := ReadFrom(load, dir, i), ReadFrom(load, dir, i + 1);
      assert run.objects == [load(PathOf(dir, FILES[i])).value] + rest.objects;
      forall k | 0 <= k < |run.objects| ensures load(PathOf(dir, FILES[i + k])) == Ok(run.objects[k]) {
        if k > 0 {
          assert run.objects[k] == rest.objects[k - 1];
        }
      }
    }
  }

  class MLModels<T> {
    var lgbmClassifier: Option<T>
    var modelArtifacts: Option<T>
    var isolationForest: Option<T>
    var anomaliesArtifacts: Option<T>
    var loaded: bool
    const modelsPath: string

    /** Once loaded, all four artifacts are present. */
    predicate Valid()
      reads this
    {
      loaded ==> lgbmClassifier.Some? && modelArtifacts.Some? && isolationForest.Some? && anomaliesArtifacts.Some?
    }

    /** The artifact slots in reading order. */
    function Slots(): (s: seq<Option<T>>)
      reads this
      ensures |s| == |FILES|
    {
      [lgbmClassifier, modelArtifacts, isolationForest, anomaliesArtifacts]
    }

    /** A fresh registry: nothing read, not loaded. */
    constructor(modelsPath: string)
      ensures this.modelsPath == modelsPath && !loaded
      ensures Slots() == [None, None, None, None]
      ensures Valid()
    {
      this.modelsPath := modelsPath;
      lgbmClassifier, modelArtifacts, isolationForest, anomaliesArtifacts := None, None, None, None;
      loaded := false;
    }

    /**
     * `load_models`: a loaded registry returns at once and nothing changes. Otherwise the four
     * files are read in order and each object is stored as soon as it is read; the first
     * failure is re-raised, leaving the slots already filled as they are and the registry not
     * loaded; only when all four are read is it loaded.
     */
    method LoadModels(load: string -> Outcome<T>) returns (raised: Option<Exception>)
      requires Valid()
      modifies this
      ensures Valid()
      ensures old(loaded) ==> raised == None && loaded && Slots() == old(Slots())
      ensures !old(loaded) ==>
        var run := ReadAll(load, modelsPath);
        && raised == run.failure
        && loaded == (run.failure == None)
        && (forall k | 0 <= k < |FILES| ::
              Slots()[k] == if k < |run.objects| then Some(run.objects[k]) else old(Slots())[k])
    {
      if loaded {
        return None;
      }
      ReadFromSpec(load, modelsPath, 0);
      var o := load(PathOf(modelsPath, CLASSIFIER_FILE));
      if o.Raised? {
        return Some(o.error);
      }
      lgbmClassifier := Some(o.value);
      o := load(PathOf(modelsPath, MODEL_ARTIFACTS_FILE));
      if o.Raised? {
        return Some(o.error);
      }
      modelArtifacts := Some(o.value);
      o := load(PathOf(modelsPath, ISOLATION_FOREST_FILE));
      if o.Raised? {
        return Some(o.error);
      }
      isolationForest := Some(o.value);
      o := load(PathOf(modelsPath, ANOMALY_ARTIFACTS_FILE));
      if o.Raised? {
        return Some(o.error);
      }
      anomaliesArtifacts := Some(o.value);
      loaded := true;
      raised := None;
    }

    /** `is_loaded`. */
    function IsLoaded(): bool
      reads this
    {
      loaded
    }

    /** A guarded getter: the slot's object once loaded, the `RuntimeError` before. */
    function Guarded(slot: Option<T>): (r: Outcome<T>)
      reads this
      requires Valid() && (loaded ==> slot.Some?)
      ensures loaded ==> r == Ok(slot.value)
      ensures !loaded ==> r == Raised(RuntimeError(NOT_LOADED))
    {
      if !loaded then Raised(RuntimeError(NOT_LOADED)) else Ok(slot.value)
    }

    /** `get_classifier`. */
    function GetClassifier(): (r: Outcome<T>)
      reads this
      requires Valid()
      ensures r.Ok? <==> loaded
      ensures r.Raised? ==> r.error == RuntimeError(NOT_LOADED)
      ensures r.Ok? ==> lgbmClassifier == Some(r.value)
    {
      Guarded(lgbmClassifier)
    }

    /** `get_model_artifacts`. */
    function GetModelArtifacts(): (r: Outcome<T>)
      reads this
      requires Valid()
      ensures r.Ok? <==> loaded
      ensures r.Raised? ==> r.error == RuntimeError(NOT_LOADED)
      ensures r.Ok? ==> modelArtifacts == Some(r.value)
    {
      Guarded(modelArtifacts)
    }

    /** `get_anomaly_detector`. */
    function GetAnomalyDetector(): (r: Outcome<T>)
      reads this
      requires Valid()
      ensures r.Ok? <==> loaded
      ensures r.Raised? ==> r.error == RuntimeError(NOT_LOADED)
      ensures r.Ok? ==> isolationForest == Some(r.value)
    {
      Guarded(isolationForest)
    }

    /** `get_anomaly_artifacts`. */
    function GetAnomalyArtifacts(): (r: Outcome<T>)
      reads this
      requires Valid()
      ensures r.Ok? <==> loaded
      ensures r.Raised? ==> r.error == RuntimeError(NOT_LOADED)
      ensures r.Ok? ==> anomaliesArtifacts == Some(r.value)
    {
      Guarded(anomaliesArtifacts)
    }
  }

  /** Before any load every getter raises the `RuntimeError`. */
  method FreshGettersRaise<T>(modelsPath: string) returns (m: MLModels<T>)
    ensures m.Valid() && !m.IsLoaded()
    ensures m.GetClassifier() == Raised(RuntimeError(NOT_LOADED))
    ensures m.GetModelArtifacts() == Raised(RuntimeError(NOT_LOADED))
    ensures m.GetAnomalyDetector() == Raised(RuntimeError(NOT_LOADED))
    ensures m.GetAnomalyArtifacts() == Raised(RuntimeError(NOT_LOADED))
  {
    m := new MLModels(modelsPath);
  }

  /**
   * Loading from files that all read: the registry is loaded and each getter returns the
   * object read from its own file; loading again, whatever the files now hold, changes nothing.
   */
  method LoadTwice<T>(m: MLModels<T>, load: string -> Outcome<T>, later: string -> Outcome<T>)
    requires m.Valid() && !m.loaded
    requires forall k | 0 <= k < |FILES| :: load(PathOf(m.modelsPath, FILES[k])).Ok?
    modifies m
    ensures m.Valid() && m.IsLoaded()
    ensures m.GetClassifier() == load(PathOf(m.modelsPath, CLASSIFIER_FILE))
    ensures m.GetModelArtifacts() == load(PathOf(m.modelsPath, MODEL_ARTIFACTS_FILE))
    ensures m.GetAnomalyDetector() == load(PathOf(m.modelsPath, ISOLATION_FOREST_FILE))
    ensures m.GetAnomalyArtifacts() == load(PathOf(m.modelsPath, ANOMALY_ARTIFACTS_FILE))
  {
    ReadFromSpec(load, m.modelsPath, 0);
    var r := m.LoadModels(load);
    assert m.Slots()[0] == m.lgbmClassifier && m.Slots()[3] == m.anomaliesArtifacts;
    assert m.Slots()[1] == m.modelArtifacts && m.Slots()[2] == m.isolationForest;
    ghost var before := m.Slots();
    r := m.LoadModels(later);
    assert m.Slots() == before;
  }

  /** A failed read leaves the registry unloaded, so every getter still raises. */
  method FailedLoadStaysUnloaded<T>(m: MLModels<T>, load: string -> Outcome<T>) returns (raised: Option<Exception>)
    requires m.Valid() && !m.loaded
    requires exists k | 0 <= k < |FILES| :: load(PathOf(m.modelsPath, FILES[k])).Raised?
    modifies m
    ensures raised.Some? && m.Valid() && !m.IsLoaded()
    ensures m.GetClassifier() == Raised(RuntimeError(NOT_LOADED))
    ensures m.GetAnomalyArtifacts() == Raised(RuntimeError(NOT_LOADED))
  {
    ReadFromSpec(load, m.modelsPath, 0);
    raised := m.LoadModels(load);
  }
}
