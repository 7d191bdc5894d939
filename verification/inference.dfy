/** The classifier service: a process-wide cache of the loaded model filled lazily by
    `load_model`, and `predict_image`, which ranks an image's class probabilities.
    The network, the checkpoint file and the image pipeline are oracles: each step the
    source delegates to torch or PIL is a parameter that either yields a value or raises. */
module Inference {
  import opened Outcomes
  import opened ErrorLog
  import opened Ranking

  /** A `PlantDiseaseClassifier` as far as the cache can observe it: the width of its output
      layer, and whether `load_state_dict` and `eval` have been applied to it. */
  datatype Classifier = Classifier(numClasses: nat, weightsLoaded: bool, evalMode: bool)

  /** The `model_state_dict` stored in a checkpoint: the output width of its classification
      head, and whether every other parameter fits the architecture. */
  datatype StateDict = StateDict(headOutputs: nat, backboneMatches: bool)

  /** What `torch.load` returns; a missing key is `None`. */
  datatype Checkpoint = Checkpoint(classNames: Option<seq<string>>, stateDict: Option<StateDict>)

  /** The outcome of each library step of one load attempt: reading the checkpoint,
      constructing the network, and switching it to evaluation mode. */
  datatype LoadOracle = LoadOracle(read: Result<Checkpoint>, build: Outcome, eval: Outcome)

  /** The module globals `_model` and `_class_names`. `NamesOnly` is the state after the class
      names were stored but the network could not be constructed. */
  datatype Cache =
    | Empty
    | NamesOnly(names: seq<string>)
    | Loaded(model: Classifier, names: seq<string>)

  /** What `load_model()` did: the pair it returned or the exception it raised, the globals
      it left behind, and the error log. */
  datatype Loading = Loading(out: Result<(Classifier, seq<string>)>, cache: Cache, log: Log)

  const ModelLoadError := "ModelLoadError"
  const LoadFailurePrefix := "Failed to load model: "
  const StateDictMismatch := "Error(s) in loading state_dict for PlantDiseaseClassifier:"

  /** A cache whose model was built for its own class list. */
  predicate Consistent(c: Cache) {
    c.Loaded? ==> c.model.numClasses == |c.names|
  }

  /** The load failed before `_model` was assigned: the checkpoint could not be read, it has
      no `class_names`, or the network could not be constructed. */
  predicate FailsBeforeAssign(o: LoadOracle) {
    || o.read.Raised?
    || o.read.value.classNames.None?
    || o.build.Fail?
  }

  /** Every step of a load attempt succeeds. */
  predicate LoadsCleanly(o: LoadOracle) {
    && o.read.Ok?
    && o.read.value.classNames.Some?
    && o.build.Pass?
    && o.read.value.stateDict.Some?
    && o.read.value.stateDict.value.backboneMatches
    && o.read.value.stateDict.value.headOutputs == |o.read.value.classNames.value|
    && o.eval.Pass?
  }

  /** `model.load_state_dict(checkpoint['model_state_dict'])`, strict: every parameter,
      the classification head included, must fit the constructed network. */
  function BindWeights(m: Classifier, sd: Option<StateDict>): (r: Result<Classifier>)
    ensures r.Ok? <==> sd.Some? && sd.value.backboneMatches && sd.value.headOutputs == m.numClasses
    ensures r.Ok? ==> r.value == m.(weightsLoaded := true)
    ensures sd.None? ==> r == Raised(KeyError("model_state_dict"))
    ensures sd.Some? && r.Raised? ==> r == Raised(Exc(StateDictMismatch))
  {
    match sd
    case None => Raised(KeyError("model_state_dict"))
    case Some(d) =>
      if d.backboneMatches && d.headOutputs == m.numClasses then Ok(m.(weightsLoaded := true))
      else Raised(Exc(StateDictMismatch))
  }

  /** The `except` clause of `load_model`: log the failure and re-raise it. */
  function LoadFailed(c: Cache, e: Exc, log: Log): Loading {
    Loading(Raised(e), c, Append(log, ModelLoadError, LoadFailurePrefix + e.msg))
  }

  /** `load_model()`. A filled cache is returned as it is; otherwise the checkpoint is read
      and the globals are assigned step by step, `_model` before its weights are bound. */
  function LoadModel(c: Cache, o: LoadOracle, log: Log): (r: Loading)
    ensures Consistent(c) ==> Consistent(r.cache)
    ensures r.out.Ok? ==> r.cache == Loaded(r.out.value.0, r.out.value.1)
    ensures Consistent(c) && r.out.Ok? ==> r.out.value.0.numClasses == |r.out.value.1|
    ensures r.out.Ok? ==> r.log == log
    ensures r.out.Raised? ==> r.log == log + [Entry(ModelLoadError, LoadFailurePrefix + r.out.exc.msg)]
    ensures c.Loaded? ==> r.cache == c
  {
    if c.Loaded? then Loading(Ok((c.model, c.names)), c, log)
    else
      match o.read
      case Raised(e) => LoadFailed(c, e, log)
      case Ok(checkpoint) =>
        match checkpoint.classNames
        case None => LoadFailed(c, KeyError("class_names"), log)
        case Some(names) =>
          if o.build.Fail? then LoadFailed(NamesOnly(names), o.build.exc, log)
          else
            var built := Classifier(|names|, false, false);
            match BindWeights(built, checkpoint.stateDict)
            case Raised(e) => LoadFailed(Loaded(built, names), e, log)
            case Ok(bound) =>
              if o.eval.Fail? then LoadFailed(Loaded(bound, names), o.eval.exc, log)
              else
                var ready := bound.(evalMode := true);
                Loading(Ok((ready, names)), Loaded(ready, names), log)
  }

  /** A filled cache is returned without consulting the checkpoint: the outcome is the same
      whatever the oracle would have done, and nothing changes. */
  lemma CachedLoadSkipsCheckpoint(c: Cache, o1: LoadOracle, o2: LoadOracle, log: Log)
    requires c.Loaded?
    ensures LoadModel(c, o1, log) == LoadModel(c, o2, log)
    ensures LoadModel(c, o1, log) == Loading(Ok((c.model, c.names)), c, log)
  {
  }

  /** After a successful load, any number of further calls return the same pair and change
      neither the cache nor the log. */
  lemma LoadIsIdempotent(c: Cache, o1: LoadOracle, o2: LoadOracle, log: Log)
    requires LoadModel(c, o1, log).out.Ok?
    ensures var first := LoadModel(c, o1, log);
            LoadModel(first.cache, o2, first.log) == first
  {
  }

  /** From an unfilled cache, a load succeeds exactly when every step succeeds, and it then
      yields a network with one output per checkpoint class name, weights bound, in
      evaluation mode, paired with the checkpoint's own class list. */
  lemma FreshLoadOutcome(c: Cache, o: LoadOracle, log: Log)
    requires !c.Loaded?
    ensures LoadModel(c, o, log).out.Ok? <==> LoadsCleanly(o)
    ensures LoadsCleanly(o) ==>
              var names := o.read.value.classNames.value;
              LoadModel(c, o, log).out.value == (Classifier(|names|, true, true), names)
  {
  }

  /** A failed load from an unfilled cache leaves the model slot empty exactly when it failed
      before `_model` was assigned; a failure while binding weights or switching to
      evaluation mode leaves a model in the slot that is not fully loaded. The exception
      raised is the failing step's own; a build failure leaves the class names stored, and
      a later failure leaves the network as far as it got. */
  lemma FailedLoadState(c: Cache, o: LoadOracle, log: Log)
    requires !c.Loaded?
    requires LoadModel(c, o, log).out.Raised?
    ensures !LoadModel(c, o, log).cache.Loaded? <==> FailsBeforeAssign(o)
    ensures o.read.Raised? ==> LoadModel(c, o, log).out == Raised(o.read.exc)
    ensures o.read.Ok? && o.read.value.classNames.None? ==>
              LoadModel(c, o, log).out == Raised(KeyError("class_names"))
    ensures o.read.Ok? && o.read.value.classNames.Some? && o.build.Fail? ==>
              LoadModel(c, o, log).out == Raised(o.build.exc)
              && LoadModel(c, o, log).cache == NamesOnly(o.read.value.classNames.value)
    ensures LoadModel(c, o, log).cache.Loaded? ==>
              !(LoadModel(c, o, log).cache.model.weightsLoaded && LoadModel(c, o, log).cache.model.evalMode)
    ensures !FailsBeforeAssign(o) && o.read.value.stateDict.None? ==>
              var names := o.read.value.classNames.value;
              && LoadModel(c, o, log).out == Raised(KeyError("model_state_dict"))
              && LoadModel(c, o, log).cache == Loaded(Classifier(|names|, false, false), names)
    ensures !FailsBeforeAssign(o) && o.read.value.stateDict.Some?
            && !(o.read.value.stateDict.value.backboneMatches
                 && o.read.value.stateDict.value.headOutputs == |o.read.value.classNames.value|) ==>
              var names := o.read.value.classNames.value;
              && LoadModel(c, o, log).out == Raised(Exc(StateDictMismatch))
              && LoadModel(c, o, log).cache == Loaded(Classifier(|names|, false, false), names)
    ensures !FailsBeforeAssign(o) && o.read.value.stateDict.Some?
            && o.read.value.stateDict.value.backboneMatches
            && o.read.value.stateDict.value.headOutputs == |o.read.value.classNames.value| ==>
              var names := o.read.value.classNames.value;
              && LoadModel(c, o, log).out == Raised(o.eval.exc)
              && LoadModel(c, o, log).cache == Loaded(Classifier(|names|, true, false), names)
  {
  }

  /** An early failure is retryable: the next call reads the checkpoint again, and succeeds
      if that read goes well. */
  lemma EarlyFailureIsRetried(c: Cache, o: LoadOracle, retry: LoadOracle, log: Log)
    requires !c.Loaded? && FailsBeforeAssign(o) && LoadsCleanly(retry)
    ensures var first := LoadModel(c, o, log);
            var second := LoadModel(first.cache, retry, first.log);
            first.out.Raised? && second.out.Ok? && second.out.value.0.weightsLoaded
  {
  }

  /** A late failure is not retryable: once `_model` holds the half-built network, every
      later call returns it, with its weights unbound or outside evaluation mode, whatever
      the checkpoint now holds. */
  lemma LateFailureIsPermanent(c: Cache, o: LoadOracle, later: LoadOracle, log: Log)
    requires !c.Loaded? && !FailsBeforeAssign(o) && !LoadsCleanly(o)
    ensures var first := LoadModel(c, o, log);
            var second := LoadModel(first.cache, later, first.log);
            && first.out.Raised?
            && second.out.Ok?
            && !(second.out.value.0.weightsLoaded && second.out.value.0.evalMode)
  {
  }

  /** A concrete scenario: the first checkpoint lacks `model_state_dict`; the second is complete,
      yet the second call returns the network with no weights bound. */
  lemma PoisonedCacheExample()
    ensures var names := ["healthy", "blight", "rust"];
            var broken := LoadOracle(Ok(Checkpoint(Some(names), None)), Pass, Pass);
            var fixed := LoadOracle(Ok(Checkpoint(Some(names), Some(StateDict(3, true)))), Pass, Pass);
            var first := LoadModel(Empty, broken, []);
            var second := LoadModel(first.cache, fixed, first.log);
            && first.out == Raised(Exc("'model_state_dict'"))
            && first.log == [Entry(ModelLoadError, "Failed to load model: 'model_state_dict'")]
            && second.out == Ok((Classifier(3, false, false), names))
  {
    var names := ["healthy", "blight", "rust"];
    var broken := LoadOracle(Ok(Checkpoint(Some(names), None)), Pass, Pass);
    var first := LoadModel(Empty, broken, []);
    assert first.out == Raised(KeyError("model_state_dict"));
    assert LoadFailurePrefix + KeyError("model_state_dict").msg == "Failed to load model: 'model_state_dict'";
  }

  // ---------------------------------------------------------------------------------------
  // Prediction

  /** The library steps of one prediction after the model is at hand: decoding and
      normalising the image, and the forward pass with softmax of a network in evaluation
      mode, which yields the per-class probability vector. */
  datatype PredictOracle = PredictOracle(preprocess: Outcome, forward: Result<seq<real>>)

  /** One `{"label": ..., "score": ...}` record. */
  datatype Prediction = Prediction(classLabel: string, score: real)

  /** What `predict_image(...)` did: the records it returned or the exception it raised,
      the globals it left behind, and the error log. */
  datatype Predicting = Predicting(out: Result<seq<Prediction>>, cache: Cache, log: Log)

  /** The `k` of `torch.topk(probabilities, 3)`. */
  const TopCount: nat := 3
  const PredictionError := "PredictionError"
  const PredictFailurePrefix := "Image prediction failed: "
  const TopKRangeError := "selected index k out of range"
  const ListIndexError := "list index out of range"
  /** What the head's `BatchNorm1d(512)` raises in training mode on the batch of one image. */
  const BatchOfOneError := "Expected more than 1 value per channel when training, got input size torch.Size([1, 512])"

  /** The forward pass on a batch of one image: a network never switched to evaluation mode
      still normalises per batch in its head and raises; otherwise the oracle's outcome. */
  function Forward(m: Classifier, po: PredictOracle): (r: Result<seq<real>>)
    ensures !m.evalMode ==> r == Raised(Exc(BatchOfOneError))
    ensures m.evalMode ==> r == po.forward
  {
    if m.evalMode then po.forward else Raised(Exc(BatchOfOneError))
  }

  /** `preds` are the records built from the positions `idx`: each is the class name and the
      probability at its position, in the order of `idx`. */
  predicate RecordsFor(names: seq<string>, p: seq<real>, idx: seq<nat>, preds: seq<Prediction>) {
    && |preds| == |idx|
    && forall j :: 0 <= j < |idx| ==>
         idx[j] < |names| && idx[j] < |p| && preds[j] == Prediction(names[idx[j]], p[idx[j]])
  }

  /** `torch.topk(p, 3)` followed by the list comprehension that maps each position to its
      class name: raises when `p` has fewer than three entries, and when a selected position
      has no class name. */
  function Rank(names: seq<string>, p: seq<real>): (r: Result<seq<Prediction>>)
    ensures r.Ok? ==> exists idx :: IsTopK(p, TopCount, idx) && RecordsFor(names, p, idx, r.value)
    ensures |p| < TopCount ==> r == Raised(Exc(TopKRangeError))
    ensures TopCount <= |p| <= |names| ==> r.Ok?
  {
    if |p| < TopCount then Raised(Exc(TopKRangeError))
    else
      var idx := TopK(p, TopCount);
      if forall j | 0 <= j < |idx| :: idx[j] < |names| then
        var preds := seq(|idx|, j requires 0 <= j < |idx| => Prediction(names[idx[j]], p[idx[j]]));
        assert RecordsFor(names, p, idx, preds);
        Ok(preds)
      else Raised(Exc(ListIndexError))
  }

  /** The `except` clause of `predict_image`: log the failure and re-raise it. */
  function PredictFailed(c: Cache, e: Exc, log: Log): Predicting {
    Predicting(Raised(e), c, Append(log, PredictionError, PredictFailurePrefix + e.msg))
  }

  /** `predict_image(uploaded_file)`. */
  function PredictImage(c: Cache, lo: LoadOracle, po: PredictOracle, log: Log): (r: Predicting)
    ensures r.cache == LoadModel(c, lo, log).cache
    ensures r.out.Ok? ==>
              && LoadModel(c, lo, log).out.Ok?
              && LoadModel(c, lo, log).out.value.0.evalMode
              && po.forward.Ok?
              && var names := LoadModel(c, lo, log).out.value.1;
                 exists idx :: IsTopK(po.forward.value, TopCount, idx)
                            && RecordsFor(names, po.forward.value, idx, r.out.value)
    ensures r.out.Ok? ==> r.log == log
    ensures r.out.Raised? ==>
              r.log == LoadModel(c, lo, log).log + [Entry(PredictionError, PredictFailurePrefix + r.out.exc.msg)]
    ensures LoadModel(c, lo, log).out.Ok? && !LoadModel(c, lo, log).out.value.0.evalMode && po.preprocess.Pass? ==>
              r.out == Raised(Exc(BatchOfOneError))
    ensures LoadModel(c, lo, log).out.Ok? && LoadModel(c, lo, log).out.value.0.evalMode
            && po.preprocess.Pass? && po.forward.Raised? ==>
              r.out == Raised(po.forward.exc)
  {
    var l := LoadModel(c, lo, log);
    match l.out
    case Raised(e) => PredictFailed(l.cache, e, l.log)
    case Ok((model, names)) =>
      if po.preprocess.Fail? then PredictFailed(l.cache, po.preprocess.exc, l.log)
      else
        match Forward(model, po)
        case Raised(e) => PredictFailed(l.cache, e, l.log)
        case Ok(p) =>
          match Rank(names, p)
          case Raised(e) => PredictFailed(l.cache, e, l.log)
          case Ok(preds) => Predicting(Ok(preds), l.cache, l.log)
  }

  /** `rec` names some class together with that class's probability. */
  predicate IsClassRecord(names: seq<string>, p: seq<real>, rec: Prediction) {
    exists k :: 0 <= k < |names| && k < |p| && rec == Prediction(names[k], p[k])
  }

  /** The records of a successful prediction: exactly three, scores non-increasing, each
      label a class name with that class's probability as score, the first score the
      maximum probability, and every class whose probability exceeds the last score listed. */
  lemma PredictionShape(names: seq<string>, p: seq<real>, preds: seq<Prediction>)
    requires exists idx :: IsTopK(p, TopCount, idx) && RecordsFor(names, p, idx, preds)
    ensures |preds| == TopCount
    ensures forall i, j :: 0 <= i < j < |preds| ==> preds[i].score >= preds[j].score
    ensures forall j :: 0 <= j < |preds| ==> IsClassRecord(names, p, preds[j])
    ensures forall j :: 0 <= j < |preds| ==> preds[j].classLabel in names
    ensures forall u :: 0 <= u < |p| ==> p[u] <= preds[0].score
    ensures forall u :: 0 <= u < |p| && u < |names| && p[u] > preds[|preds| - 1].score ==>
              Prediction(names[u], p[u]) in preds
  {
  }

  /** A prediction on a fully loaded network whose every step succeeds and whose probability
      vector has one entry per class, with at least three classes, returns records; with
      fewer than three entries it raises and logs instead of returning a shorter list. */
  lemma PredictionOutcome(c: Cache, lo: LoadOracle, po: PredictOracle, log: Log)
    requires LoadModel(c, lo, log).out.Ok? && po.preprocess.Pass? && po.forward.Ok?
    ensures var (model, names) := LoadModel(c, lo, log).out.value;
            model.evalMode && |po.forward.value| == |names| >= TopCount ==> PredictImage(c, lo, po, log).out.Ok?
    ensures LoadModel(c, lo, log).out.value.0.evalMode && |po.forward.value| < TopCount ==>
              var r := PredictImage(c, lo, po, log);
              r.out == Raised(Exc(TopKRangeError)) && |r.log| == |log| + 1
  {
  }

  /** A load failure inside `predict_image` is re-raised unchanged and logged twice: once
      as a model-load error, then as a prediction error. */
  lemma LoadFailureLoggedTwice(c: Cache, lo: LoadOracle, po: PredictOracle, log: Log)
    requires LoadModel(c, lo, log).out.Raised?
    ensures var e := LoadModel(c, lo, log).out.exc;
            var r := PredictImage(c, lo, po, log);
            && r.out == Raised(e)
            && r.log == log + [Entry(ModelLoadError, LoadFailurePrefix + e.msg),
                               Entry(PredictionError, PredictFailurePrefix + e.msg)]
  {
  }

  /** After a late load failure every prediction fails: the cached network was never
      switched to evaluation mode, so each image that decodes makes the forward pass raise,
      and the failure is logged once more as a prediction error. */
  lemma LateFailureBreaksPrediction(c: Cache, o: LoadOracle, lo: LoadOracle, po: PredictOracle, log: Log)
    requires !c.Loaded? && !FailsBeforeAssign(o) && !LoadsCleanly(o)
    ensures var first := LoadModel(c, o, log);
            var r := PredictImage(first.cache, lo, po, first.log);
            && r.out.Raised?
            && r.cache == first.cache
            && (po.preprocess.Pass? ==> r.out == Raised(Exc(BatchOfOneError)))
            && r.log == first.log + [Entry(PredictionError, PredictFailurePrefix + r.out.exc.msg)]
  {
  }

  /** An image that cannot be decoded fails only that call: a loaded cache stays loaded and
      the next prediction uses it without reloading. */
  lemma DecodeFailureKeepsCache(c: Cache, lo: LoadOracle, bad: PredictOracle, lo2: LoadOracle, log: Log)
    requires LoadModel(c, lo, log).out.Ok? && bad.preprocess.Fail?
    ensures var r := PredictImage(c, lo, bad, log);
            && r.out == Raised(bad.preprocess.exc)
            && r.cache.Loaded?
            && LoadModel(r.cache, lo2, r.log).out == LoadModel(c, lo, log).out
  {
  }

  /** The three-class example: probabilities 0.70, 0.20, 0.10 rank the classes in that order. */
  lemma ThreeClassExample(p: seq<real>, preds: seq<Prediction>)
    requires p == [0.70, 0.20, 0.10]
    requires exists idx :: IsTopK(p, TopCount, idx) && RecordsFor(["healthy", "blight", "rust"], p, idx, preds)
    ensures preds == [Prediction("healthy", 0.70), Prediction("blight", 0.20), Prediction("rust", 0.10)]
  {
    var names := ["healthy", "blight", "rust"];
    var idx :| IsTopK(p, TopCount, idx) && RecordsFor(names, p, idx, preds);
    DecreasingIsRanked(p, idx);
    assert preds[0] == Prediction(names[0], p[0]);
    assert preds[1] == Prediction(names[1], p[1]);
    assert preds[2] == Prediction(names[2], p[2]);
  }

  /** When the probabilities strictly decrease along three positions, the only ranking of
      three is the identity. */
  lemma DecreasingIsRanked(p: seq<real>, idx: seq<nat>)
    requires |p| == 3 && p[0] > p[1] > p[2]
    requires IsTopK(p, 3, idx)
    ensures idx == [0, 1, 2]
  {
  }
}
