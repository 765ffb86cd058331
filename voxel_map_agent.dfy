/** `CustomSparseVoxelMapAgent`: a thin shim that feeds observations to an external voxel map, queries
    the instances it holds, and scores two of its feature channels against each other. The external
    map is abstract: a log of the observations added to it, its instance list and its feature rows,
    with the library's own computations passed in as functions. */
module VoxelMapAgent {
  import opened Wrappers
  import opened Seqs

  type Image = seq<real>

  /** A detected object as the shim sees it. */
  datatype Instance = Instance(categoryId: int, score: real, embedding: seq<real>)

  /** One posed RGB-D frame. A `task_observations` key that is absent is `None`. */
  datatype Observation = Observation(
    rgb: Image,
    depth: Image,
    cameraPose: seq<real>,
    cameraK: seq<real>,
    instance: Option<Image>,
    instanceClasses: Option<seq<int>>,
    instanceScores: Option<seq<real>>,
    features: Option<Image>)

  /** The exceptions the shim raises itself or lets escape. */
  datatype AgentError =
    | KeyError(key: string)               // a missing `task_observations` key
    | NoSemanticSensor                    // attribute access on `semantic_sensor` when it is None
    | NotInVocabulary(query: string)      // the assertion on `name_to_seg_id`
    | NoEncoder                           // the assertion on `voxel_map.encoder`
    | UnknownMethod(queryMethod: string)       // NotImplementedError for an unknown query method
    | CacheDirMissing                     // the assertion on `cache_dir` for a cache key
    | CacheNotImplemented                 // NotImplementedError of both cache branches
    | IndexError                          // a scene list shorter than `images`

  /** The external `SparseVoxelMap`. */
  class VoxelMap {
    var added: seq<Observation>
    var instances: seq<Instance>
    var features: seq<seq<real>>
    /** How `add` changes the instance list and the feature rows. */
    const fuse: (seq<Instance>, Observation) -> seq<Instance>
    const accumulate: (seq<seq<real>>, Observation) -> seq<seq<real>>
    /** What `postprocess_instances` makes of the instance list. */
    const postprocess: seq<Instance> -> seq<Instance>
    /** `encoder`, if any: the score of an instance's max-aggregated image embedding against the
        normalised embedding of a text. */
    const encoder: Option<(string, Instance) -> real>

    constructor (fuse: (seq<Instance>, Observation) -> seq<Instance>,
                 accumulate: (seq<seq<real>>, Observation) -> seq<seq<real>>,
                 postprocess: seq<Instance> -> seq<Instance>,
                 encoder: Option<(string, Instance) -> real>)
      ensures added == [] && instances == [] && features == []
      ensures this.fuse == fuse && this.accumulate == accumulate
      ensures this.postprocess == postprocess && this.encoder == encoder
    {
      this.fuse, this.accumulate, this.postprocess, this.encoder := fuse, accumulate, postprocess, encoder;
      added, instances, features := [], [], [];
    }

    /** Everything `add`, `reset` and `postprocess_instances` can change. */
    function State(): (seq<Observation>, seq<Instance>, seq<seq<real>>)
      reads this
    {
      (added, instances, features)
    }

    method Add(obs: Observation)
      modifies this
      ensures added == old(added) + [obs]
      ensures instances == fuse(old(instances), obs) && features == accumulate(old(features), obs)
    {
      added, instances, features := added + [obs], fuse(instances, obs), accumulate(features, obs);
    }

    method Reset()
      modifies this
      ensures added == [] && instances == [] && features == []
    {
      added, instances, features := [], [], [];
    }

    method PostprocessInstances()
      modifies this
      ensures instances == postprocess(old(instances))
      ensures added == old(added) && features == old(features)
    {
      instances := postprocess(instances);
    }
  }

  /** `step` reads both instance keys before it calls `add`. */
  predicate Steppable(obs: Observation) {
    obs.instanceClasses.Some? && obs.instanceScores.Some?
  }

  function StepError(obs: Observation): AgentError {
    if obs.instanceClasses.None? then KeyError("instance_classes") else KeyError("instance_scores")
  }

  /** Index of the first observation `step` rejects, or the length when it rejects none. */
  function FirstUnsteppable(obsList: seq<Observation>): (k: nat)
    ensures k <= |obsList|
    ensures forall i :: 0 <= i < k ==> Steppable(obsList[i])
    ensures k < |obsList| ==> !Steppable(obsList[k])
  {
    if obsList == [] || !Steppable(obsList[0]) then 0 else 1 + FirstUnsteppable(obsList[1..])
  }

  /** The effect of a run of `add` calls on one part of the map's state. */
  function Fold<A, B>(f: (A, B) -> A, start: A, s: seq<B>): A {
    if s == [] then start else f(Fold(f, start, s[..|s| - 1]), s[|s| - 1])
  }

  lemma FoldStep<A, B>(f: (A, B) -> A, start: A, s: seq<B>, i: nat)
    requires i < |s|
    ensures Fold(f, start, s[..i + 1]) == f(Fold(f, start, s[..i]), s[i])
  {
    assert s[..i + 1][..i] == s[..i];
  }

  // ---------------------------------------------------------------- queries

  /** `get_instances_for_query` returns either the list alone or the list and its scores. */
  datatype QueryResult = InstancesOnly(instances: seq<Instance>) | WithScores(instances: seq<Instance>, scores: seq<real>)

  const TextQueryUsed := "chair"

  function Pack(instances: seq<Instance>, scores: seq<real>, returnScores: bool): QueryResult {
    if returnScores then WithScores(instances, scores) else InstancesOnly(instances)
  }

  /** The "class_match" comprehension. */
  function ClassMatch(instances: seq<Instance>, classId: int): seq<Instance> {
    Filter(instances, (inst: Instance) => inst.categoryId == classId)
  }

  /** `[inst.score for inst in instances]`. */
  function Scores(instances: seq<Instance>): (r: seq<real>)
    ensures |r| == |instances|
    ensures forall i :: 0 <= i < |r| ==> r[i] == instances[i].score
  {
    if instances == [] then [] else Scores(instances[..|instances| - 1]) + [instances[|instances| - 1].score]
  }

  /** The "text_image_encoder" scores: each instance against the text the code encodes. */
  function EncoderScores(instances: seq<Instance>, encode: (string, Instance) -> real): (r: seq<real>)
    ensures |r| == |instances|
    ensures forall i :: 0 <= i < |r| ==> r[i] == encode(TextQueryUsed, instances[i])
  {
    if instances == [] then []
    else EncoderScores(instances[..|instances| - 1], encode) + [encode(TextQueryUsed, instances[|instances| - 1])]
  }

  /** The body of `get_instances_for_query` over the map's current instances. */
  function QueryInstances(instances: seq<Instance>, nameToSegId: Option<map<string, int>>,
                          encoder: Option<(string, Instance) -> real>,
                          textQuery: string, queryMethod: string, returnScores: bool): Result<QueryResult, AgentError> {
    if queryMethod == "class_match" then
      if nameToSegId.None? then Failure(NoSemanticSensor)
      else if textQuery !in nameToSegId.value then Failure(NotInVocabulary(textQuery))
      else
        var selected := ClassMatch(instances, nameToSegId.value[textQuery]);
        Success(Pack(selected, Scores(selected), returnScores))
    else if queryMethod == "text_image_encoder" then
      if encoder.None? then Failure(NoEncoder)
      else Success(Pack(instances, EncoderScores(instances, encoder.value), returnScores))
    else Failure(UnknownMethod(queryMethod))
  }

  /** The class match keeps exactly the instances of the class, each as often as it occurs, in order. */
  lemma ClassMatchSpec(instances: seq<Instance>, classId: int, x: Instance)
    ensures x in ClassMatch(instances, classId) <==> x in instances && x.categoryId == classId
    ensures multiset(ClassMatch(instances, classId))[x] ==
            if x.categoryId == classId then multiset(instances)[x] else 0
    ensures IsSubsequence(ClassMatch(instances, classId), instances)
  {
    var p := (inst: Instance) => inst.categoryId == classId;
    FilterMembership(instances, p, x);
    FilterMultiplicity(instances, p, x);
    FilterIsSubsequence(instances, p);
  }

  /** "class_match" succeeds iff there is a sensor whose vocabulary has the query; it then returns the
      instances of the mapped class with their own scores, paired or alone as `returnScores` says. */
  lemma QueryClassMatch(instances: seq<Instance>, nameToSegId: Option<map<string, int>>,
                        encoder: Option<(string, Instance) -> real>, textQuery: string, returnScores: bool)
    ensures var r := QueryInstances(instances, nameToSegId, encoder, textQuery, "class_match", returnScores);
      && (r.Success? <==> nameToSegId.Some? && textQuery in nameToSegId.value)
      && (nameToSegId.None? ==> r == Failure(NoSemanticSensor))
      && (nameToSegId.Some? && textQuery !in nameToSegId.value ==> r == Failure(NotInVocabulary(textQuery)))
      && (r.Success? ==>
            && r.value.instances == ClassMatch(instances, nameToSegId.value[textQuery])
            && (r.value.WithScores? <==> returnScores)
            && (returnScores ==>
                  && |r.value.scores| == |r.value.instances|
                  && forall i :: 0 <= i < |r.value.scores| ==> r.value.scores[i] == r.value.instances[i].score))
  {
  }

  /** A method other than the two known ones fails, whatever else is given. */
  lemma QueryUnknownMethod(instances: seq<Instance>, nameToSegId: Option<map<string, int>>,
                           encoder: Option<(string, Instance) -> real>, textQuery: string, queryMethod: string,
                           returnScores: bool)
    requires queryMethod != "class_match" && queryMethod != "text_image_encoder"
    ensures QueryInstances(instances, nameToSegId, encoder, textQuery, queryMethod, returnScores) == Failure(UnknownMethod(queryMethod))
  {
  }

  /** "text_image_encoder" returns every instance, in order, scored against the fixed text "chair":
      the query text does not affect the result. */
  lemma QueryTextEncoderIgnoresQuery(instances: seq<Instance>, nameToSegId: Option<map<string, int>>,
                                     encoder: Option<(string, Instance) -> real>, q1: string, q2: string,
                                     returnScores: bool)
    ensures QueryInstances(instances, nameToSegId, encoder, q1, "text_image_encoder", returnScores) ==
            QueryInstances(instances, nameToSegId, encoder, q2, "text_image_encoder", returnScores)
    ensures var r := QueryInstances(instances, nameToSegId, encoder, q1, "text_image_encoder", returnScores);
      (r.Success? <==> encoder.Some?) && (r.Success? ==> r.value.instances == instances)
  {
  }

  /** The loop of `build_scene_and_get_instances_for_queries` that fills `instances_dict`. */
  function QueryAll(instances: seq<Instance>, nameToSegId: Option<map<string, int>>,
                    encoder: Option<(string, Instance) -> real>, queries: seq<string>): Result<map<string, seq<Instance>>, AgentError> {
    if queries == [] then Success(map[])
    else
      var prev := QueryAll(instances, nameToSegId, encoder, queries[..|queries| - 1]);
      if prev.Failure? then prev
      else
        var q := queries[|queries| - 1];
        var r := QueryInstances(instances, nameToSegId, encoder, q, "class_match", false);
        if r.Failure? then Failure(r.error) else Success(prev.value[q := r.value.instances])
  }

  /** The dictionary is built iff the sensor knows every query (vacuously with no query). */
  lemma {:induction false} QueryAllSucceeds(instances: seq<Instance>, nameToSegId: Option<map<string, int>>,
                                            encoder: Option<(string, Instance) -> real>, queries: seq<string>)
    ensures QueryAll(instances, nameToSegId, encoder, queries).Success? <==>
            queries == [] || (nameToSegId.Some? && forall q :: q in queries ==> q in nameToSegId.value)
  {
    if queries != [] {
      var init := queries[..|queries| - 1];
      var q := queries[|queries| - 1];
      QueryAllSucceeds(instances, nameToSegId, encoder, init);
      assert queries == init + [q];
      assert forall x :: x in queries <==> x in init || x == q;
    }
  }

  /** One step of the dictionary loop, with the "class_match" query written out. */
  lemma QueryAllLast(instances: seq<Instance>, nameToSegId: Option<map<string, int>>,
                     encoder: Option<(string, Instance) -> real>, queries: seq<string>)
    requires queries != []
    ensures var prev := QueryAll(instances, nameToSegId, encoder, queries[..|queries| - 1]);
            var q := queries[|queries| - 1];
      QueryAll(instances, nameToSegId, encoder, queries) ==
        if prev.Failure? then prev
        else if nameToSegId.None? then Failure(NoSemanticSensor)
        else if q !in nameToSegId.value then Failure(NotInVocabulary(q))
        else Success(prev.value[q := ClassMatch(instances, nameToSegId.value[q])])
  {
  }

  /** A built dictionary maps exactly the queries, each to its class match. */
  lemma {:induction false} QueryAllContents(instances: seq<Instance>, nameToSegId: Option<map<string, int>>,
                                            encoder: Option<(string, Instance) -> real>, queries: seq<string>)
    ensures var r := QueryAll(instances, nameToSegId, encoder, queries);
      r.Success? ==>
        && (forall x :: x in r.value <==> x in queries)
        && forall x :: x in r.value ==> x in nameToSegId.value && r.value[x] == ClassMatch(instances, nameToSegId.value[x])
  {
    if queries != [] {
      var init := queries[..|queries| - 1];
      QueryAllContents(instances, nameToSegId, encoder, init);
      QueryAllLast(instances, nameToSegId, encoder, queries);
      assert queries == init + [queries[|queries| - 1]];
    }
  }

  /** The dictionary is built iff the sensor knows every query (vacuously with no query); its keys are
      then exactly the queries, each mapped to its class match. */
  lemma QueryAllSpec(instances: seq<Instance>, nameToSegId: Option<map<string, int>>,
                     encoder: Option<(string, Instance) -> real>, queries: seq<string>)
    ensures var r := QueryAll(instances, nameToSegId, encoder, queries);
      && (r.Success? <==> queries == [] || (nameToSegId.Some? && forall q :: q in queries ==> q in nameToSegId.value))
      && (r.Success? ==> r.value.Keys == set q | q in queries)
      && (r.Success? ==> forall q :: q in r.value ==> q in nameToSegId.value && r.value[q] == ClassMatch(instances, nameToSegId.value[q]))
  {
    QueryAllSucceeds(instances, nameToSegId, encoder, queries);
    QueryAllContents(instances, nameToSegId, encoder, queries);
    var r := QueryAll(instances, nameToSegId, encoder, queries);
    if r.Success? {
      assert r.value.Keys == set q | q in queries;
    }
  }

  /** When a query is missing, the dictionary fails on the first missing one, in query order. */
  lemma {:induction false} QueryAllFirstMissing(instances: seq<Instance>, nameToSegId: map<string, int>,
                                                encoder: Option<(string, Instance) -> real>, queries: seq<string>, j: nat)
    requires j < |queries| && queries[j] !in nameToSegId
    requires forall i :: 0 <= i < j ==> queries[i] in nameToSegId
    ensures QueryAll(instances, Some(nameToSegId), encoder, queries) == Failure(NotInVocabulary(queries[j]))
  {
    var init := queries[..|queries| - 1];
    if j < |queries| - 1 {
      QueryAllFirstMissing(instances, nameToSegId, encoder, init, j);
    } else {
      QueryAllSpec(instances, Some(nameToSegId), encoder, init);
      assert forall q :: q in init ==> q in nameToSegId by {
        forall q | q in init ensures q in nameToSegId {
          var i :| 0 <= i < |init| && init[i] == q;
          assert queries[i] == q;
        }
      }
    }
  }

  // ---------------------------------------------------------------- IoU

  /** `features[:, channel] == 1`. */
  function Mask(features: seq<seq<real>>, channel: nat): (m: seq<bool>)
    requires forall i :: 0 <= i < |features| ==> channel < |features[i]|
    ensures |m| == |features|
    ensures forall i :: 0 <= i < |m| ==> (m[i] <==> features[i][channel] == 1.0)
  {
    if features == [] then []
    else Mask(features[..|features| - 1], channel) + [features[|features| - 1][channel] == 1.0]
  }

  function CountTrue(s: seq<bool>): nat {
    if s == [] then 0 else CountTrue(s[..|s| - 1]) + if s[|s| - 1] then 1 else 0
  }

  /** `torch.logical_and(gt_mask, predicted_mask).sum()`. */
  function IntersectionCount(pred: seq<bool>, gt: seq<bool>): nat
    requires |pred| == |gt|
  {
    if pred == [] then 0
    else IntersectionCount(pred[..|pred| - 1], gt[..|gt| - 1]) + if gt[|gt| - 1] && pred[|pred| - 1] then 1 else 0
  }

  /** `torch.logical_or(gt_mask, predicted_mask).sum()`. */
  function UnionCount(pred: seq<bool>, gt: seq<bool>): nat
    requires |pred| == |gt|
  {
    if pred == [] then 0
    else UnionCount(pred[..|pred| - 1], gt[..|gt| - 1]) + if gt[|gt| - 1] || pred[|pred| - 1] then 1 else 0
  }

  /** Each row in both masks is counted twice on each side of the equation, each row in one mask once. */
  lemma {:induction false} InclusionExclusion(pred: seq<bool>, gt: seq<bool>)
    requires |pred| == |gt|
    ensures IntersectionCount(pred, gt) + UnionCount(pred, gt) == CountTrue(pred) + CountTrue(gt)
  {
    if pred != [] { InclusionExclusion(pred[..|pred| - 1], gt[..|gt| - 1]); }
  }

  lemma {:induction false} CountBounds(pred: seq<bool>, gt: seq<bool>)
    requires |pred| == |gt|
    ensures IntersectionCount(pred, gt) <= CountTrue(pred) <= UnionCount(pred, gt) <= |pred|
    ensures IntersectionCount(pred, gt) <= CountTrue(gt) <= UnionCount(pred, gt)
  {
    if pred != [] { CountBounds(pred[..|pred| - 1], gt[..|gt| - 1]); }
  }

  lemma {:induction false} CountsSymmetric(pred: seq<bool>, gt: seq<bool>)
    requires |pred| == |gt|
    ensures IntersectionCount(pred, gt) == IntersectionCount(gt, pred)
    ensures UnionCount(pred, gt) == UnionCount(gt, pred)
  {
    if pred != [] { CountsSymmetric(pred[..|pred| - 1], gt[..|gt| - 1]); }
  }

  /** The intersection reaches the union exactly when the masks agree on every row. */
  lemma {:induction false} IntersectionIsUnion(pred: seq<bool>, gt: seq<bool>)
    requires |pred| == |gt|
    ensures IntersectionCount(pred, gt) == UnionCount(pred, gt) <==> pred == gt
  {
    if pred != [] {
      var p', g' := pred[..|pred| - 1], gt[..|gt| - 1];
      IntersectionIsUnion(p', g');
      CountBounds(p', g');
      assert pred == p' + [pred[|pred| - 1]] && gt == g' + [gt[|gt| - 1]];
    }
  }

  lemma {:induction false} UnionCountsAll(pred: seq<bool>)
    ensures UnionCount(pred, pred) == CountTrue(pred)
  {
    if pred != [] { UnionCountsAll(pred[..|pred| - 1]); }
  }

  /** `intersection / union if union > 0 else 0.0`, in exact arithmetic. */
  function Iou(pred: seq<bool>, gt: seq<bool>): (r: real)
    requires |pred| == |gt|
    ensures 0.0 <= r <= 1.0
    ensures UnionCount(pred, gt) == 0 ==> r == 0.0
  {
    var union := UnionCount(pred, gt);
    CountBounds(pred, gt);
    if union > 0 then
      RatioAtMostOne(IntersectionCount(pred, gt) as real, union as real);
      IntersectionCount(pred, gt) as real / union as real
    else 0.0
  }

  lemma RatioAtMostOne(i: real, u: real)
    requires 0.0 <= i <= u && 0.0 < u
    ensures 0.0 <= i / u <= 1.0
  {
    assert i / u * u == i;
  }

  /** The ratio does not depend on which mask is the prediction. */
  lemma IouSymmetric(pred: seq<bool>, gt: seq<bool>)
    requires |pred| == |gt|
    ensures Iou(pred, gt) == Iou(gt, pred)
  {
    CountsSymmetric(pred, gt);
  }

  /** The ratio is 1 exactly for two identical masks with at least one row set. */
  lemma IouOne(pred: seq<bool>, gt: seq<bool>)
    requires |pred| == |gt|
    ensures Iou(pred, gt) == 1.0 <==> pred == gt && CountTrue(pred) > 0
  {
    IntersectionIsUnion(pred, gt);
    UnionCountsAll(pred);
    var i, u := IntersectionCount(pred, gt), UnionCount(pred, gt);
    if u > 0 && i as real / u as real == 1.0 {
      assert i as real == u as real;
    }
  }

  // ---------------------------------------------------------------- scenes

  /** The lists of a scene, indexed by image. */
  datatype SceneObs = SceneObs(images: seq<Image>, depths: seq<Image>, poses: seq<seq<real>>, intrinsics: seq<seq<real>>)

  predicate SceneIndexable(scene: SceneObs) {
    |scene.depths| >= |scene.images| && |scene.poses| >= |scene.images| && |scene.intrinsics| >= |scene.images|
  }

  /** `scene_obs["images"][i] * 255`. */
  function Scale(img: Image, factor: real): (r: Image)
    ensures |r| == |img| && forall j :: 0 <= j < |img| ==> r[j] == img[j] * factor
  {
    if img == [] then [] else Scale(img[..|img| - 1], factor) + [img[|img| - 1] * factor]
  }

  /** The observation built for image `i`: no instance image and empty task observations. */
  function SceneObservation(scene: SceneObs, i: nat): Observation
    requires SceneIndexable(scene) && i < |scene.images|
  {
    Observation(Scale(scene.images[i], 255.0), scene.depths[i], scene.poses[i], scene.intrinsics[i],
                None, None, None, None)
  }

  /** The loop building `obs_list`: one observation per image index, or an `IndexError` when a list
      is shorter than `images`. */
  method BuildObservations(scene: SceneObs) returns (r: Result<seq<Observation>, AgentError>)
    ensures r.Failure? <==> !SceneIndexable(scene)
    ensures r.Failure? ==> r.error == IndexError
    ensures r.Success? ==> |r.value| == |scene.images|
    ensures r.Success? ==> forall i :: 0 <= i < |scene.images| ==> r.value[i] == SceneObservation(scene, i)
  {
    var obsList: seq<Observation> := [];
    var i := 0;
    while i < |scene.images|
      invariant 0 <= i <= |scene.images|
      invariant i <= |scene.depths| && i <= |scene.poses| && i <= |scene.intrinsics|
      invariant |obsList| == i
      invariant forall k :: 0 <= k < i ==>
        obsList[k] == Observation(Scale(scene.images[k], 255.0), scene.depths[k], scene.poses[k], scene.intrinsics[k],
                                  None, None, None, None)
    {
      if i >= |scene.depths| || i >= |scene.poses| || i >= |scene.intrinsics| {
        return Failure(IndexError);
      }
      var obs := Observation(Scale(scene.images[i], 255.0), scene.depths[i], scene.poses[i], scene.intrinsics[i],
                             None, None, None, None);
      obsList := obsList + [obs];
      i := i + 1;
    }
    r := Success(obsList);
  }

  /** As written, the scene's observations carry no `"instance_classes"`, so `step` rejects each one. */
  lemma SceneObservationsUnsteppable(scene: SceneObs, i: nat)
    requires SceneIndexable(scene) && i < |scene.images|
    ensures !Steppable(SceneObservation(scene, i))
    ensures StepError(SceneObservation(scene, i)) == KeyError("instance_classes")
  {
  }

  // ---------------------------------------------------------------- the agent

  class CustomSparseVoxelMapAgent {
    /** `semantic_sensor.name_to_seg_id`, or None when the agent has no sensor. */
    const semanticSensor: Option<map<string, int>>
    const voxelMap: VoxelMap
    const cacheDir: Option<string>

    constructor (semanticSensor: Option<map<string, int>>, voxelMap: VoxelMap, cacheDir: Option<string>)
      ensures this.semanticSensor == semanticSensor && this.voxelMap == voxelMap && this.cacheDir == cacheDir
    {
      this.semanticSensor, this.voxelMap, this.cacheDir := semanticSensor, voxelMap, cacheDir;
    }

    method Reset()
      modifies voxelMap
      ensures voxelMap.added == [] && voxelMap.instances == [] && voxelMap.features == []
    {
      voxelMap.Reset();
    }

    /** `step(obs)`: read the two instance keys, then add the observation to the map. */
    method Step(obs: Observation) returns (r: Outcome<AgentError>)
      modifies voxelMap
      ensures !Steppable(obs) ==> r == Fail(StepError(obs)) && voxelMap.State() == old(voxelMap.State())
      ensures Steppable(obs) ==> r == Pass
      ensures Steppable(obs) ==> voxelMap.added == old(voxelMap.added) + [obs]
      ensures Steppable(obs) ==> voxelMap.instances == voxelMap.fuse(old(voxelMap.instances), obs)
      ensures Steppable(obs) ==> voxelMap.features == voxelMap.accumulate(old(voxelMap.features), obs)
    {
      if obs.instanceClasses.None? {
        return Fail(KeyError("instance_classes"));
      }
      if obs.instanceScores.None? {
        return Fail(KeyError("instance_scores"));
      }
      voxelMap.Add(obs);
      r := Pass;
    }

    /** `step_trajectory(obs_list, cache_key)`. A cache key fails before anything is added; otherwise
        the observations are stepped in order up to the first one `step` rejects, and a configured cache
        directory fails after all of them were added. */
    method StepTrajectory(obsList: seq<Observation>, cacheKey: Option<string>) returns (r: Outcome<AgentError>)
      modifies voxelMap
      ensures cacheKey.Some? ==> voxelMap.State() == old(voxelMap.State())
      ensures cacheKey.Some? ==> r == Fail(if cacheDir.None? then CacheDirMissing else CacheNotImplemented)
      ensures cacheKey.None? ==>
        var k := FirstUnsteppable(obsList);
        && voxelMap.added == old(voxelMap.added) + obsList[..k]
        && voxelMap.instances == Fold(voxelMap.fuse, old(voxelMap.instances), obsList[..k])
        && voxelMap.features == Fold(voxelMap.accumulate, old(voxelMap.features), obsList[..k])
        && r == if k < |obsList| then Fail(StepError(obsList[k]))
                else if cacheDir.Some? then Fail(CacheNotImplemented) else Pass
    {
      if cacheKey.Some? {
        return Fail(if cacheDir.None? then CacheDirMissing else CacheNotImplemented);
      }
      ghost var added0, instances0, features0 := voxelMap.added, voxelMap.instances, voxelMap.features;
      var i := 0;
      while i < |obsList|
        invariant 0 <= i <= |obsList|
        invariant forall j :: 0 <= j < i ==> Steppable(obsList[j])
        invariant voxelMap.added == added0 + obsList[..i]
        invariant voxelMap.instances == Fold(voxelMap.fuse, instances0, obsList[..i])
        invariant voxelMap.features == Fold(voxelMap.accumulate, features0, obsList[..i])
      {
        FoldStep(voxelMap.fuse, instances0, obsList, i);
        FoldStep(voxelMap.accumulate, features0, obsList, i);
        assert obsList[..i + 1] == obsList[..i] + [obsList[i]];
        var stepped := Step(obsList[i]);
        if stepped.Fail? {
          assert FirstUnsteppable(obsList) == i by { FirstUnsteppableAt(obsList, i); }
          return stepped;
        }
        i := i + 1;
      }
      FirstUnsteppableAt(obsList, i);
      if cacheDir.Some? {
        return Fail(CacheNotImplemented);
      }
      r := Pass;
    }

    /** `get_instances_for_query(text_query, method, return_scores)`. */
    function GetInstancesForQuery(textQuery: string, queryMethod: string, returnScores: bool): (r: Result<QueryResult, AgentError>)
      reads this, voxelMap
      ensures queryMethod == "class_match" && semanticSensor.Some? && textQuery in semanticSensor.value ==>
        r.Success? && r.value.instances == ClassMatch(voxelMap.instances, semanticSensor.value[textQuery])
      ensures queryMethod != "class_match" && queryMethod != "text_image_encoder" ==> r == Failure(UnknownMethod(queryMethod))
    {
      QueryInstances(voxelMap.instances, semanticSensor, voxelMap.encoder, textQuery, queryMethod, returnScores)
    }

    /** `evaluate_iou()` over the map's feature rows (column 0 the prediction, column 1 the ground truth). */
    function EvaluateIou(): (r: real)
      reads this, voxelMap
      requires forall i :: 0 <= i < |voxelMap.features| ==> 2 <= |voxelMap.features[i]|
      ensures 0.0 <= r <= 1.0
      ensures UnionCount(Mask(voxelMap.features, 0), Mask(voxelMap.features, 1)) == 0 ==> r == 0.0
    {
      Iou(Mask(voxelMap.features, 0), Mask(voxelMap.features, 1))
    }

    /** `build_scene_and_get_instances_for_queries(scene_obs, queries, reset)`. */
    method BuildSceneAndGetInstancesForQueries(scene: SceneObs, queries: seq<string>, reset: bool)
      returns (r: Result<map<string, seq<Instance>>, AgentError>)
      modifies voxelMap
      ensures !SceneIndexable(scene) ==> r == Failure(IndexError) && voxelMap.State() == old(voxelMap.State())
      ensures SceneIndexable(scene) && |scene.images| > 0 ==>
        r == Failure(KeyError("instance_classes")) && voxelMap.State() == old(voxelMap.State())
      ensures SceneIndexable(scene) && |scene.images| == 0 && cacheDir.Some? ==>
        r == Failure(CacheNotImplemented) && voxelMap.State() == old(voxelMap.State())
      ensures SceneIndexable(scene) && |scene.images| == 0 && cacheDir.None? ==>
        && r == QueryAll(voxelMap.postprocess(old(voxelMap.instances)), semanticSensor, voxelMap.encoder, queries)
        && (r.Success? && reset ==> voxelMap.added == [] && voxelMap.instances == [] && voxelMap.features == [])
        && (r.Failure? || !reset ==>
              && voxelMap.added == old(voxelMap.added)
              && voxelMap.instances == voxelMap.postprocess(old(voxelMap.instances))
              && voxelMap.features == old(voxelMap.features))
    {
      var built := BuildObservations(scene);
      if built.Failure? {
        return Failure(built.error);
      }
      var obsList := built.value;
      if |obsList| > 0 {
        SceneObservationsUnsteppable(scene, 0);
      }
      assert FirstUnsteppable(obsList) == 0;
      ghost var before := voxelMap.State();
      var stepped := StepTrajectory(obsList, None);
      assert obsList[..0] == [];
      assert voxelMap.added == before.0 + [] == before.0;
      assert voxelMap.instances == Fold(voxelMap.fuse, before.1, []) == before.1;
      assert voxelMap.features == Fold(voxelMap.accumulate, before.2, []) == before.2;
      if stepped.Fail? {
        return Failure(stepped.error);
      }
      voxelMap.PostprocessInstances();

      var instancesDict: map<string, seq<Instance>> := map[];
      var i := 0;
      while i < |queries|
        invariant 0 <= i <= |queries|
        invariant QueryAll(voxelMap.instances, semanticSensor, voxelMap.encoder, queries[..i]) == Success(instancesDict)
        invariant voxelMap.added == old(voxelMap.added) && voxelMap.features == old(voxelMap.features)
        invariant voxelMap.instances == voxelMap.postprocess(old(voxelMap.instances))
      {
        assert queries[..i + 1][..i] == queries[..i];
        var result := GetInstancesForQuery(queries[i], "class_match", false);
        if result.Failure? {
          QueryAllStopped(voxelMap.instances, semanticSensor, voxelMap.encoder, queries, i + 1);
          assert queries[..|queries|] == queries;
          return Failure(result.error);
        }
        instancesDict := instancesDict[queries[i] := result.value.instances];
        i := i + 1;
      }
      assert queries[..i] == queries;
      if reset {
        Reset();
      }
      r := Success(instancesDict);
    }
  }

  lemma {:induction false} FirstUnsteppableAt(obsList: seq<Observation>, i: nat)
    requires i <= |obsList|
    requires forall j :: 0 <= j < i ==> Steppable(obsList[j])
    requires i < |obsList| ==> !Steppable(obsList[i])
    ensures FirstUnsteppable(obsList) == i
  {
    if i > 0 {
      FirstUnsteppableAt(obsList[1..], i - 1);
    }
  }

  /** Once a query has failed, later queries change nothing. */
  lemma {:induction false} QueryAllStopped(instances: seq<Instance>, nameToSegId: Option<map<string, int>>,
                                           encoder: Option<(string, Instance) -> real>, queries: seq<string>, i: nat)
    requires i <= |queries| && QueryAll(instances, nameToSegId, encoder, queries[..i]).Failure?
    ensures QueryAll(instances, nameToSegId, encoder, queries) == QueryAll(instances, nameToSegId, encoder, queries[..i])
    decreases |queries| - i
  {
    if i < |queries| {
      assert queries[..i + 1][..i] == queries[..i];
      QueryAllStopped(instances, nameToSegId, encoder, queries, i + 1);
    } else {
      assert queries[..i] == queries;
    }
  }
}
