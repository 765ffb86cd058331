# Episode patching, frame-to-video selection and the voxel-map agent shim, in Dafny

This project models the sequential logic inside a set of robotics research scripts:

- **`save_custom_episodes`** (`CustomEpisodes`). It loads an episode collection and a map from episode id to a corrected start pose with a "goal found" flag. It overwrites the start position and rotation of every episode that has a correction, in place. It collects those episodes into an "updated" list, and the ones whose goal was found into a "found" list. It writes each list, under the collection's other keys, to a file only when the list is non-empty. The loaded episode list is an `array` patched in place; the files written are a returned log.
- **The top-level episode-"10" script** (`SingleEpisodePatch`). The same in-place patch, hard-wired to id `"10"`. It dumps the whole collection, or stops with a `KeyError` when an episode `"10"` exists but has no correction.
- **`convert_images_to_video` and its driver** (`FrameToVideo`, `LexOrder`).
  - Image names are selected with a prefix/suffix test and sorted in place by Python's string order.
  - One frame is written per name, read in that order. An empty selection fails on `image_files[0]`.
  - The driver converts, for each episode id, the first folder (in listing order) whose name ends with `"_" + id`.
  - Directory listings are parameters. A frame is identified by the path it is read from. `cv2.VideoWriter` is a class whose state is an append-only log of frames.
- **`CustomSparseVoxelMapAgent`** (`VoxelMapAgent`). The external `SparseVoxelMap` is a class with three parts of state: the log of observations added to it, its instance list and its feature rows. What the library computes from them (`add`'s fusion, `postprocess_instances`, the text/image encoder) is given to it as functions. Modelled on top of it:
  - the agent's `step`, `step_trajectory`, `reset`, `get_instances_for_query` and `build_scene_and_get_instances_for_queries`;
  - `evaluate_iou`, using naturals for the counts and `real` for the ratio.

Each imperative operation is a method proved against a specification function on sequences, and the properties are lemmas about those functions. Every exception on the modelled paths, except those listed under "## Left out", is modelled as a `Failure`/`Fail` value naming its cause. At that point the script also stops: a method returns at the first failure and changes nothing after it. Several of these values stand for a specific Python exception:

- `NoSemanticSensor` stands for the AttributeError raised on a missing sensor.
- `NotInVocabulary`, `NoEncoder` and `CacheDirMissing` stand for the AssertionErrors at lines 123-125, 132-134 and 98 of the agent file.
- `UnknownMethod` and `CacheNotImplemented` stand for the NotImplementedErrors at lines 146, 99 and 105.

Two consequences of the code as written, which the model states and proves:

- `build_scene_and_get_instances_for_queries` builds every observation with empty `task_observations` (lines 183-185 of the agent file). `step` then reads `task_observations["instance_classes"]` (line 73). So, as written, whenever `images` is non-empty and the scene lists are long enough, the method fails with `KeyError` on the first observation. A short depth, pose or intrinsics list fails earlier, with IndexError, while the list is built. It succeeds only for an empty scene. `VoxelMapAgent.SceneObservationsUnsteppable` and the contract of `BuildSceneAndGetInstancesForQueries` state this.
- The "text_image_encoder" query encodes the fixed text `"chair"`, not the query (line 136). The model's encoder is applied to `"chair"`, and `QueryTextEncoderIgnoresQuery` proves the result does not depend on the query.

## Model

| member | source | states |
|---|---|---|
| `Episodes.Relocate` | src/gen_custom_ep.py:22-23 | The start position and rotation become the correction's; the id and every other field are kept. |
| `CustomEpisodes.SaveCustomEpisodes` | src/gen_custom_ep.py:5-38 | The loaded list is left patched in place as `PatchAll` says. The two lists built are `Updated` and `Found` of the loaded list. The files written are those `Emitted` gives: each list under the collection's other keys, only when non-empty, corrected list first. |
| `CustomEpisodes.PatchEpisodes` | src/gen_custom_ep.py:19-26 | The loop leaves the array equal to `PatchAll` of its old contents, and returns `Updated` and `Found` of those contents. |
| `CustomEpisodes.WriteEpisodeFiles` | src/gen_custom_ep.py:28-38 | The dumps are exactly `Emitted`: the corrected list, then the found list, each under the loaded other keys and only when non-empty. |
| `CustomEpisodes.PatchAll` | src/gen_custom_ep.py:19-23 | The list keeps its length and order. Each entry keeps its id and other fields. An entry without a correction is unchanged. An entry with one gets the correction's position and rotation. |
| `CustomEpisodes.Updated` | src/gen_custom_ep.py:19-24 | Every entry of `new_episodes` has a correction, and carries that correction's position and rotation. |
| `CustomEpisodes.Found` | src/gen_custom_ep.py:25-26 | Every entry of `found_episodes` has a correction whose `found_goal` is true. |
| `CustomEpisodes.UpdatedIsSelection` | src/gen_custom_ep.py:19-24 | `new_episodes` is exactly the patched input list restricted to ids with a correction: input order, duplicates kept. |
| `CustomEpisodes.FoundIsSelection` | src/gen_custom_ep.py:24-26 | `found_episodes` is exactly `new_episodes` restricted to episodes whose correction has `found_goal`. |
| `CustomEpisodes.FoundWithinUpdated` | src/gen_custom_ep.py:24-26 | The found list is a subsequence of the updated list (same relative order), so a subset of it and never longer. |
| `CustomEpisodes.UpdatedMembership` | src/gen_custom_ep.py:19-24 | An entry is in the updated list iff it is a patched input entry with a correction. It occurs there exactly as often as in the patched input. |
| `CustomEpisodes.UncorrectedExcluded` | src/gen_custom_ep.py:21 | An episode without a correction is left as loaded, and no entry of either output list has its id. |
| `CustomEpisodes.PatchAllIdempotent` | src/gen_custom_ep.py:19-24 | Patching the patched list again changes nothing and selects the same updated list. |
| `CustomEpisodes.EmittedFiles` | src/gen_custom_ep.py:28-38 | The corrected-episodes file is written iff the updated list is non-empty. The found-episodes file is written iff the found list is non-empty. Every written collection keeps the loaded other keys. |
| `CustomEpisodes.FileNamesInjective` | src/gen_custom_ep.py:11-36 | Distinct thresholds give distinct correction-file, corrected-output and found-output names. |
| `CustomEpisodes.CustomFoundDistinct` | src/gen_custom_ep.py:30-36 | No corrected-episodes file name equals any found-episodes file name. |
| `SingleEpisodePatch.PatchTarget` | gen_custom_ep.py:10-13 | Same length and order. Episodes with any other id are unchanged. Episodes `"10"` get the correction's position and rotation, and keep their id and other fields. |
| `SingleEpisodePatch.PatchEpisodeTen` | gen_custom_ep.py:10-18 | With a correction for `"10"`: the list is patched in place as `PatchTarget` says and dumped whole. With no episode `"10"`: the list is dumped unchanged. With an episode `"10"` but no correction: `KeyError`, nothing changed, nothing written. |
| `SingleEpisodePatch.PatchTargetAbsent` | gen_custom_ep.py:10-11 | With no episode `"10"`, the result equals the input whatever the correction. |
| `SingleEpisodePatch.PatchTargetIsPatchAll` | gen_custom_ep.py:10-13 | The single-id patch equals the general patch with a correction map holding only `"10"`. |
| `SingleEpisodePatch.PatchTargetIdempotent` | gen_custom_ep.py:10-13 | Patching the patched list again changes nothing. |
| `FrameToVideo.SelectImagesSpec` | src/frame_to_video.py:16-21 | A name is selected iff it is listed, ends with `.png` or `.jpg`, and does not start with `planner_snapshot_`. Each is kept as often as listed, in listing order. |
| `FrameToVideo.SnapshotsExcluded` | src/frame_to_video.py:19 | No name starting with `planner_snapshot_` is ever selected, whatever its extension. |
| `LexOrder.LexTotal` | src/frame_to_video.py:22 | Python's string order is total. |
| `LexOrder.LexTransitive` | src/frame_to_video.py:22 | Python's string order is transitive. |
| `LexOrder.LexAntisymmetric` | src/frame_to_video.py:22 | Python's string order is antisymmetric. |
| `LexOrder.SortNames` | src/frame_to_video.py:22 | The result is in non-decreasing string order and is a permutation (same multiset) of the input. |
| `LexOrder.SortedUnique` | src/frame_to_video.py:22 | Two sorted permutations of one list are equal, so sorting has exactly one outcome. |
| `LexOrder.SortInPlace` | src/frame_to_video.py:22 | `image_files.sort()` leaves the array equal to the sorted permutation of its old contents. |
| `FrameToVideo.SortedImageFiles` | src/frame_to_video.py:16-22 | A fresh array holding the selected names, sorted: `SortNames` of the selection. |
| `FrameToVideo.WriteFrames` | src/frame_to_video.py:33-34 | The writer's log gains one frame per array entry, each read from `image_dir` joined with the name, in array order. |
| `FrameToVideo.VideoWriter.Write` | src/frame_to_video.py:33-34 | A frame written to an open writer is appended to its log; nothing else changes. |
| `FrameToVideo.ConvertImagesToVideo` | src/frame_to_video.py:7-38 | The result is `ConvertResult` of the listing: the selection sorted, one frame per name in sorted order, failing with IndexError when nothing is selected. |
| `FrameToVideo.ConvertResultSpec` | src/frame_to_video.py:16-34 | Conversion fails (IndexError at `image_files[0]`) iff no listed name is a frame name. Otherwise the video has the given path and rate, exactly one frame per selected name in sorted order, and is sized from its first frame. |
| `FrameToVideo.FirstMatchingFolder` | src/frame_to_video.py:52-53 | A returned index is the least index whose folder name ends with `"_" + id`. `None` means no folder matches. |
| `FrameToVideo.FindFolder` | src/frame_to_video.py:52-59 | The search loop with `break` finds exactly the first matching folder. |
| `FrameToVideo.OutputVideoPathInjective` | src/frame_to_video.py:55-57 | Distinct ids give distinct `base_vid_dir/video_<id>.mp4` paths. |
| `FrameToVideo.ConvertEpisodeVideos` | src/frame_to_video.py:41-59 | An existing video directory fails before any video. Otherwise the videos and the stopping error are those of `RunSpec` over the ids in key order. |
| `FrameToVideo.RunStopped` | src/frame_to_video.py:50-58 | After a failed conversion no later id has any effect. |
| `FrameToVideo.RunVideosSound` | src/frame_to_video.py:50-59 | Every video is the conversion of the first matching folder of some listed id, at that id's output path. There are never more videos than ids. |
| `FrameToVideo.RunVideosComplete` | src/frame_to_video.py:50-59 | If the run did not stop, every id with a matching folder got its video. |
| `FrameToVideo.RunPathsDistinct` | src/frame_to_video.py:50-59 | With distinct ids, no two videos share a path: at most one video per id. |
| `VoxelMapAgent.Mask` | src/home_robot/home_robot/agent/multitask/custom_sparse_voxel_map_agent.py:225-226 | One flag per feature row, true iff that row's channel equals 1. |
| `VoxelMapAgent.InclusionExclusion` | src/home_robot/home_robot/agent/multitask/custom_sparse_voxel_map_agent.py:229-230 | Intersection plus union equals the number of set predicted rows plus the number of set ground-truth rows. |
| `VoxelMapAgent.CountBounds` | src/home_robot/home_robot/agent/multitask/custom_sparse_voxel_map_agent.py:229-230 | The intersection is at most either mask's count, which is at most the union, which is at most the number of rows. |
| `VoxelMapAgent.CountsSymmetric` | src/home_robot/home_robot/agent/multitask/custom_sparse_voxel_map_agent.py:229-230 | Intersection and union do not depend on which mask is the prediction. |
| `VoxelMapAgent.IntersectionIsUnion` | src/home_robot/home_robot/agent/multitask/custom_sparse_voxel_map_agent.py:229-230 | Intersection equals union iff the two masks are identical. |
| `VoxelMapAgent.Iou` | src/home_robot/home_robot/agent/multitask/custom_sparse_voxel_map_agent.py:232-233 | The ratio lies in [0, 1] and is 0 when the union is empty. |
| `VoxelMapAgent.IouSymmetric` | src/home_robot/home_robot/agent/multitask/custom_sparse_voxel_map_agent.py:229-233 | The ratio is symmetric in the predicted and ground-truth masks. |
| `VoxelMapAgent.IouOne` | src/home_robot/home_robot/agent/multitask/custom_sparse_voxel_map_agent.py:229-233 | The ratio is 1 iff the masks are identical and non-empty. |
| `VoxelMapAgent.CustomSparseVoxelMapAgent.EvaluateIou` | src/home_robot/home_robot/agent/multitask/custom_sparse_voxel_map_agent.py:221-234 | The ratio over the map's channels 0 and 1 lies in [0, 1], and is 0 when no row has either channel equal to 1. |
| `VoxelMapAgent.ClassMatchSpec` | src/home_robot/home_robot/agent/multitask/custom_sparse_voxel_map_agent.py:127-129 | The class match keeps exactly the instances of the class, each as often as it occurs, in original order. |
| `VoxelMapAgent.Scores` | src/home_robot/home_robot/agent/multitask/custom_sparse_voxel_map_agent.py:130 | The scores list has one entry per instance, and entry `i` is instance `i`'s score. |
| `VoxelMapAgent.QueryClassMatch` | src/home_robot/home_robot/agent/multitask/custom_sparse_voxel_map_agent.py:122-151 | "class_match" succeeds iff a sensor exists and its vocabulary has the query. It then returns the instances of the mapped class with aligned scores, paired iff `return_scores`. |
| `VoxelMapAgent.QueryUnknownMethod` | src/home_robot/home_robot/agent/multitask/custom_sparse_voxel_map_agent.py:145-146 | Any other method name fails with NotImplementedError. |
| `VoxelMapAgent.EncoderScores` | src/home_robot/home_robot/agent/multitask/custom_sparse_voxel_map_agent.py:136-144 | One score per instance, each that instance scored against the text `"chair"`. |
| `VoxelMapAgent.QueryTextEncoderIgnoresQuery` | src/home_robot/home_robot/agent/multitask/custom_sparse_voxel_map_agent.py:131-144 | "text_image_encoder" fails iff there is no encoder. Otherwise it returns all instances in order, and the result is the same for every query text. |
| `VoxelMapAgent.CustomSparseVoxelMapAgent.GetInstancesForQuery` | src/home_robot/home_robot/agent/multitask/custom_sparse_voxel_map_agent.py:117-151 | Over the map's instances: a known query returns its class match; an unknown method fails. |
| `VoxelMapAgent.CustomSparseVoxelMapAgent.Reset` | src/home_robot/home_robot/agent/multitask/custom_sparse_voxel_map_agent.py:63-64 | The map's observation log, instances and features are emptied. |
| `VoxelMapAgent.CustomSparseVoxelMapAgent.Step` | src/home_robot/home_robot/agent/multitask/custom_sparse_voxel_map_agent.py:69-86 | A missing `instance_classes` or `instance_scores` key fails with KeyError and leaves the map unchanged. Otherwise the observation is added to the map once. |
| `VoxelMapAgent.FirstUnsteppable` | src/home_robot/home_robot/agent/multitask/custom_sparse_voxel_map_agent.py:72-74 | The index of the first observation `step` rejects: all before it are accepted. |
| `VoxelMapAgent.CustomSparseVoxelMapAgent.StepTrajectory` | src/home_robot/home_robot/agent/multitask/custom_sparse_voxel_map_agent.py:92-106 | A cache key fails before any observation is added (AssertionError without a cache directory, else NotImplementedError). Otherwise the observations are added in order up to the first rejected one, which fails. If all are added and a cache directory is set, it fails afterwards. |
| `VoxelMapAgent.BuildObservations` | src/home_robot/home_robot/agent/multitask/custom_sparse_voxel_map_agent.py:171-187 | One observation per image index (RGB scaled by 255, no instance data), or IndexError iff a depth, pose or intrinsics list is shorter than the image list. |
| `VoxelMapAgent.SceneObservationsUnsteppable` | src/home_robot/home_robot/agent/multitask/custom_sparse_voxel_map_agent.py:173-186 | Each scene observation lacks `instance_classes`, so `step` rejects it with that KeyError. |
| `VoxelMapAgent.QueryAllSpec` | src/home_robot/home_robot/agent/multitask/custom_sparse_voxel_map_agent.py:192-194 | The dictionary is built iff every query is in the sensor's vocabulary. Its keys are then exactly the queries, each mapped to its class match. |
| `VoxelMapAgent.QueryAllFirstMissing` | src/home_robot/home_robot/agent/multitask/custom_sparse_voxel_map_agent.py:192-194 | The dictionary loop fails on the first query, in order, that is missing from the vocabulary. |
| `VoxelMapAgent.CustomSparseVoxelMapAgent.BuildSceneAndGetInstancesForQueries` | src/home_robot/home_robot/agent/multitask/custom_sparse_voxel_map_agent.py:153-197 | A short scene list fails with IndexError. A non-empty scene fails with KeyError `instance_classes` when its first observation is stepped. Both leave the map unchanged. An empty scene with a cache directory fails likewise, also leaving the map unchanged. Otherwise the instances are post-processed and the query dictionary is returned. The map is reset iff `reset` holds and the dictionary was built. |

## Left out

- All file, gzip, JSON and OpenCV I/O. What is loaded (the episode collection, the correction map, directory listings, whether the video directory exists) is a parameter. What is written is a returned value.
- The threshold prompt (`input()`): the threshold is a parameter.
- KeyErrors from malformed records (a loaded collection without an `"episodes"` key, src/gen_custom_ep.py:8 and gen_custom_ep.py:5; an episode without `episode_id`; a correction without `position`, `rotation` or `found_goal`): records always have these fields.
- `found_goal` is a boolean; Python's truthiness of other JSON values is not modelled.
- Aliasing between `new_episodes`/`found_episodes` and the loaded list: the model copies values. Nothing mutates an entry after it is appended, so the written contents are the same.
- The viewer scripts `view_ep.py` and `src/view_ep.py`: a load and re-dump with no logic.
- Pixel content, frame sizes and codecs: a frame is the path it is read from, and the video is sized "from" its first frame's path. Images that fail to load are not modelled.
- `os.listdir` is called once per id in the driver. The model assumes it returns the same listing each time.
- `fps` is passed through; nothing is claimed about it.
- The internals of `SparseVoxelMap`, `OvmmPerception` and `get_instances`: the map's fusion, feature accumulation, post-processing and encoder are function parameters.
- The RGB division by 255 inside `step`, and float rounding in general: features, scores and the IoU are exact `real`s.
- `set_vocabulary`, `get_2d_map`, `show`, `export_voxel_labels_to_json`, the `visualize_map` flag and the `logger.debug` call: forwarding, logging or I/O with no logic.
- The "text_image_encoder" tensor arithmetic (normalisation, dot products, max): abstracted into one scoring function of text and instance.
- A `voxel_map` of None. The Python default argument (one `SparseVoxelMap` built once and shared by every agent created without a map) is not modelled as such: the map is a constructor argument, and passing one `VoxelMap` to two agents expresses the shared default; one agent's `Reset` then empties the other's map too.
- A `scene_obs` that lacks `"images"`, `"depths"`, `"poses"` or `"intrinsics"` raises KeyError (agent file lines 172, 177, 181, 182). `SceneObs` always holds all four lists, so this error is not modelled.
- File and folder names are modelled as sequences of Unicode scalar values (Dafny `char`); names from `os.listdir` that carry lone surrogates (undecodable bytes) are not representable.
- The `print("Video conversion complete!")` at the end of a conversion is console output only. Running under `python -O` skips the `assert` statements at agent lines 98, 123-125 and 132-134, so the failures become NotImplementedError, KeyError or AttributeError instead. The model follows assertions enabled.
- `Container.otherKeys` never holds `"episodes"` itself. This is a convention of the model's loading, not enforced by the type.
- `VoxelMapAgent.CustomSparseVoxelMapAgent.EvaluateIou`: requires every feature row to have at least two channels; the source's tensor indexing would raise otherwise, and that error is not modelled.
