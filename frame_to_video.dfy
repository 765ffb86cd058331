/** `convert_images_to_video` and the driver that makes one video per episode id. Directory listings are
    parameters, frames are identified by the path they are read from, and the video writer is a log. */
module FrameToVideo {
  import opened Wrappers
  import opened Seqs
  import opened Strings
  import opened LexOrder

  const SnapshotPrefix := "planner_snapshot_"
  const DefaultFps := 5
  const BaseImageDir := "datadump/episode_vis/eval_hssd/"
  const BaseVidDir := "datadump/episode_vid/eval_hssd/"

  /** Reading `image_files[0]` of an empty selection, or creating a video directory that exists. */
  datatype VideoError = IndexError | FileExistsError

  /** A finished video file: where it is, its rate, the image its frame size was taken from, its frames. */
  datatype Video = Video(path: string, fps: int, sizeSource: string, frames: seq<string>)

  /** The writer `cv2.VideoWriter` as an append-only log of the frames handed to it. */
  class VideoWriter {
    const path: string
    const fps: int
    const sizeSource: string
    var frames: seq<string>
    var released: bool

    constructor (path: string, fps: int, sizeSource: string)
      ensures this.path == path && this.fps == fps && this.sizeSource == sizeSource
      ensures frames == [] && !released
    {
      this.path, this.fps, this.sizeSource := path, fps, sizeSource;
      frames, released := [], false;
    }

    /** Appends a frame; a released writer ignores it. */
    method Write(frame: string)
      modifies this
      ensures frames == if old(released) then old(frames) else old(frames) + [frame]
      ensures released == old(released)
    {
      if !released { frames := frames + [frame]; }
    }

    method Release()
      modifies this
      ensures released && frames == old(frames)
    {
      released := true;
    }

    function Finished(): (v: Video)
      reads this
      ensures v.path == path && v.fps == fps && v.sizeSource == sizeSource && v.frames == frames
    {
      Video(path, fps, sizeSource, frames)
    }
  }

  /** The filter of the list comprehension: an image extension, and not a planner snapshot. */
  predicate IsFrameName(name: string) {
    !StartsWith(name, SnapshotPrefix) && (EndsWith(name, ".png") || EndsWith(name, ".jpg"))
  }

  /** `image_files` before sorting. */
  function SelectImages(listing: seq<string>): seq<string> {
    Filter(listing, IsFrameName)
  }

  /** The paths read for a sequence of names in `dir`. */
  function FramePaths(dir: string, names: seq<string>): (r: seq<string>)
    ensures |r| == |names|
    ensures forall i :: 0 <= i < |names| ==> r[i] == Join(dir, names[i])
  {
    if names == [] then [] else FramePaths(dir, names[..|names| - 1]) + [Join(dir, names[|names| - 1])]
  }

  /** The outcome of converting a directory with the given listing. */
  function ConvertResult(imageDir: string, outputVideo: string, fps: int, listing: seq<string>): Result<Video, VideoError> {
    var names := SortNames(SelectImages(listing));
    if names == [] then Failure(IndexError)
    else Success(Video(outputVideo, fps, Join(imageDir, names[0]), FramePaths(imageDir, names)))
  }

  /** `convert_images_to_video(image_dir, output_video, fps)`, where `listing` is `os.listdir(image_dir)`. */
  method ConvertImagesToVideo(imageDir: string, outputVideo: string, fps: int, listing: seq<string>)
    returns (r: Result<Video, VideoError>)
    ensures r == ConvertResult(imageDir, outputVideo, fps, listing)
  {
    var imageFiles := SortedImageFiles(listing);
    ghost var names := imageFiles[..];
    if imageFiles.Length == 0 {
      assert names == [];
      return Failure(IndexError);
    }
    var video := new VideoWriter(outputVideo, fps, Join(imageDir, imageFiles[0]));
    WriteFrames(video, imageDir, imageFiles);
    video.Release();
    r := Success(video.Finished());
    assert r.value == Video(outputVideo, fps, Join(imageDir, names[0]), FramePaths(imageDir, names));
  }

  /** `image_files`, built by the list comprehension and sorted in place. */
  method SortedImageFiles(listing: seq<string>) returns (a: array<string>)
    ensures fresh(a) && a[..] == SortNames(SelectImages(listing))
  {
    var selected := SelectImages(listing);
    a := new string[|selected|](i requires 0 <= i < |selected| => selected[i]);
    assert a[..] == selected;
    SortInPlace(a);
  }

  /** The `for image in image_files` loop: one frame read from `dir` per name, in array order. */
  method WriteFrames(video: VideoWriter, dir: string, files: array<string>)
    requires !video.released
    modifies video
    ensures video.frames == old(video.frames) + FramePaths(dir, files[..])
    ensures !video.released
  {
    for i := 0 to files.Length
      invariant video.frames == old(video.frames) + FramePaths(dir, files[..i])
      invariant !video.released
    {
      FramePathsStep(dir, files[..], i);
      assert files[..][..i] == files[..i] && files[..][..i + 1] == files[..i + 1];
      video.Write(Join(dir, files[i]));
    }
    assert files[..files.Length] == files[..];
  }

  lemma FramePathsStep(dir: string, names: seq<string>, i: nat)
    requires i < |names|
    ensures FramePaths(dir, names[..i + 1]) == FramePaths(dir, names[..i]) + [Join(dir, names[i])]
  {
    assert names[..i + 1][..i] == names[..i];
  }

  /** Conversion fails exactly when the listing holds no frame name; otherwise the video has one frame
      per selected name, read in sorted order, and is sized by the first of them. */
  lemma ConvertResultSpec(imageDir: string, outputVideo: string, fps: int, listing: seq<string>)
    ensures ConvertResult(imageDir, outputVideo, fps, listing).Failure? <==>
            forall x :: x in listing ==> !IsFrameName(x)
    ensures ConvertResult(imageDir, outputVideo, fps, listing).Success? ==>
      var v := ConvertResult(imageDir, outputVideo, fps, listing).value;
      var names := SortNames(SelectImages(listing));
      && v.path == outputVideo && v.fps == fps
      && |v.frames| == |SelectImages(listing)|
      && Sorted(names) && multiset(names) == multiset(SelectImages(listing))
      && v.frames == FramePaths(imageDir, names)
      && v.sizeSource == v.frames[0]
  {
    var sel := SelectImages(listing);
    var names := SortNames(sel);
    assert |names| == |multiset(names)| == |multiset(sel)| == |sel|;
    if names == [] {
      forall x | x in listing ensures !IsFrameName(x) { FilterMembership(listing, IsFrameName, x); }
    } else {
      var x := sel[0];
      FilterMembership(listing, IsFrameName, x);
    }
  }

  /** The selection is exactly the frame names of the listing, each as often as listed, in listing order. */
  lemma SelectImagesSpec(listing: seq<string>, x: string)
    ensures x in SelectImages(listing) <==> x in listing && IsFrameName(x)
    ensures multiset(SelectImages(listing))[x] == if IsFrameName(x) then multiset(listing)[x] else 0
    ensures IsSubsequence(SelectImages(listing), listing)
  {
    FilterMembership(listing, IsFrameName, x);
    FilterMultiplicity(listing, IsFrameName, x);
    FilterIsSubsequence(listing, IsFrameName);
  }

  /** A snapshot is never selected, whatever its extension. */
  lemma SnapshotsExcluded(listing: seq<string>, rest: string)
    ensures SnapshotPrefix + rest !in SelectImages(listing)
  {
    var name := SnapshotPrefix + rest;
    assert name[..|SnapshotPrefix|] == SnapshotPrefix;
    FilterMembership(listing, IsFrameName, name);
  }

  /** The folder test of the driver. */
  predicate MatchesEpisode(folder: string, episodeId: string) {
    EndsWith(folder, "_" + episodeId)
  }

  /** Index of the first folder, in listing order, whose name ends with `"_" + episodeId`. */
  function FirstMatchingFolder(folders: seq<string>, episodeId: string): (r: Option<nat>)
    ensures r.Some? ==> r.value < |folders| && MatchesEpisode(folders[r.value], episodeId)
    ensures r.Some? ==> forall j :: 0 <= j < r.value ==> !MatchesEpisode(folders[j], episodeId)
    ensures r.None? ==> forall j :: 0 <= j < |folders| ==> !MatchesEpisode(folders[j], episodeId)
  {
    if folders == [] then None
    else if MatchesEpisode(folders[0], episodeId) then Some(0)
    else match FirstMatchingFolder(folders[1..], episodeId)
      case None => None
      case Some(k) => Some(k + 1)
  }

  /** The inner search loop with its `break`. */
  method FindFolder(folders: seq<string>, episodeId: string) returns (found: Option<nat>)
    ensures found == FirstMatchingFolder(folders, episodeId)
  {
    found := None;
    for j := 0 to |folders|
      invariant forall l :: 0 <= l < j ==> !MatchesEpisode(folders[l], episodeId)
    {
      if MatchesEpisode(folders[j], episodeId) {
        found := Some(j);
        break;
      }
    }
  }

  /** Where the video of an episode is written. */
  function OutputVideoPath(episodeId: string): string {
    Join(BaseVidDir, "video_" + episodeId + ".mp4")
  }

  lemma OutputVideoPathInjective(id1: string, id2: string)
    requires id1 != id2
    ensures OutputVideoPath(id1) != OutputVideoPath(id2)
  {
    var n1, n2 := "video_" + id1 + ".mp4", "video_" + id2 + ".mp4";
    assert n1[0] == 'v' && n2[0] == 'v';
    if OutputVideoPath(id1) == OutputVideoPath(id2) {
      JoinInjective(BaseVidDir, n1, n2);
      AffixInjective("video_", id1, id2, ".mp4");
    }
  }

  /** What the driver does for one episode id: nothing without a matching folder, else one conversion. */
  function Attempt(episodeId: string, folders: seq<string>, listdir: string -> seq<string>): Option<Result<Video, VideoError>> {
    match FirstMatchingFolder(folders, episodeId)
    case None => None
    case Some(k) =>
      var imageDir := Join(BaseImageDir, folders[k]);
      Some(ConvertResult(imageDir, OutputVideoPath(episodeId), DefaultFps, listdir(imageDir)))
  }

  /** The videos written by the driver, and the error that stopped it, if any. */
  datatype Run = Run(videos: seq<Video>, error: Option<VideoError>)

  /** The driver's loop over the episode ids, in the correction file's key order. */
  function RunSpec(episodeIds: seq<string>, folders: seq<string>, listdir: string -> seq<string>): Run {
    if episodeIds == [] then Run([], None)
    else
      var prev := RunSpec(episodeIds[..|episodeIds| - 1], folders, listdir);
      if prev.error.Some? then prev
      else match Attempt(episodeIds[|episodeIds| - 1], folders, listdir)
        case None => prev
        case Some(Failure(e)) => Run(prev.videos, Some(e))
        case Some(Success(v)) => Run(prev.videos + [v], None)
  }

  /** The `__main__` block: `folders` is `os.listdir(base_image_dir)`, `listdir` gives the listing of
      each image directory, and `vidDirExists` says whether `os.makedirs(base_vid_dir)` fails. */
  method ConvertEpisodeVideos(episodeIds: seq<string>, folders: seq<string>, listdir: string -> seq<string>,
                              vidDirExists: bool)
    returns (run: Run)
    ensures vidDirExists ==> run == Run([], Some(FileExistsError))
    ensures !vidDirExists ==> run == RunSpec(episodeIds, folders, listdir)
  {
    if vidDirExists {
      return Run([], Some(FileExistsError));
    }
    run := Run([], None);
    var i := 0;
    while i < |episodeIds|
      invariant 0 <= i <= |episodeIds|
      invariant run == RunSpec(episodeIds[..i], folders, listdir)
      invariant i < |episodeIds| ==> run.error.None?
    {
      var episodeId := episodeIds[i];
      assert episodeIds[..i + 1][..i] == episodeIds[..i];
      var k := FindFolder(folders, episodeId);
      if k.Some? {
        var imageDir := Join(BaseImageDir, folders[k.value]);
        var converted := ConvertImagesToVideo(imageDir, OutputVideoPath(episodeId), DefaultFps, listdir(imageDir));
        if converted.Failure? {
          run := Run(run.videos, Some(converted.error));
          assert run == RunSpec(episodeIds[..i + 1], folders, listdir);
          RunStopped(episodeIds, folders, listdir, i + 1);
          assert episodeIds[..|episodeIds|] == episodeIds;
          return;
        }
        run := Run(run.videos + [converted.value], None);
      }
      i := i + 1;
    }
    assert episodeIds[..i] == episodeIds;
  }

  /** Once a conversion has failed, later ids change nothing. */
  lemma {:induction false} RunStopped(ids: seq<string>, folders: seq<string>, listdir: string -> seq<string>, i: nat)
    requires i <= |ids| && RunSpec(ids[..i], folders, listdir).error.Some?
    ensures RunSpec(ids, folders, listdir) == RunSpec(ids[..i], folders, listdir)
    decreases |ids| - i
  {
    if i < |ids| {
      assert ids[..i + 1][..i] == ids[..i];
      RunStopped(ids, folders, listdir, i + 1);
    } else {
      assert ids[..i] == ids;
    }
  }

  /** Every video comes from an id of the list that has a matching folder, and is that id's conversion;
      there are never more videos than ids. */
  lemma {:induction false} RunVideosSound(ids: seq<string>, folders: seq<string>, listdir: string -> seq<string>)
    ensures |RunSpec(ids, folders, listdir).videos| <= |ids|
    ensures forall v :: v in RunSpec(ids, folders, listdir).videos ==>
      exists id :: id in ids && Attempt(id, folders, listdir) == Some(Success(v)) && v.path == OutputVideoPath(id)
  {
    if ids != [] {
      var init := ids[..|ids| - 1];
      RunVideosSound(init, folders, listdir);
      forall v | v in RunSpec(ids, folders, listdir).videos
        ensures exists id :: id in ids && Attempt(id, folders, listdir) == Some(Success(v)) && v.path == OutputVideoPath(id)
      {
        if v in RunSpec(init, folders, listdir).videos {
          var id :| id in init && Attempt(id, folders, listdir) == Some(Success(v)) && v.path == OutputVideoPath(id);
          assert id in ids;
        } else {
          assert ids[|ids| - 1] in ids;
        }
      }
    }
  }

  /** If the driver ran to the end, each id with a matching folder got its video. */
  lemma {:induction false} RunVideosComplete(ids: seq<string>, folders: seq<string>, listdir: string -> seq<string>, id: string)
    requires RunSpec(ids, folders, listdir).error.None?
    requires id in ids && FirstMatchingFolder(folders, id).Some?
    ensures Attempt(id, folders, listdir).Some? && Attempt(id, folders, listdir).value.Success?
    ensures Attempt(id, folders, listdir).value.value in RunSpec(ids, folders, listdir).videos
  {
    var init := ids[..|ids| - 1];
    var prev := RunSpec(init, folders, listdir);
    if id == ids[|ids| - 1] {
    } else {
      assert id in init;
      RunVideosComplete(init, folders, listdir, id);
    }
  }

  /** With distinct ids (the keys of the correction file), no two videos share an output path:
      at most one video per id. */
  lemma {:induction false} RunPathsDistinct(ids: seq<string>, folders: seq<string>, listdir: string -> seq<string>)
    requires forall i, j :: 0 <= i < j < |ids| ==> ids[i] != ids[j]
    ensures var vs := RunSpec(ids, folders, listdir).videos;
      forall i, j :: 0 <= i < j < |vs| ==> vs[i].path != vs[j].path
  {
    if ids != [] {
      var init, last := ids[..|ids| - 1], ids[|ids| - 1];
      RunPathsDistinct(init, folders, listdir);
      var prev := RunSpec(init, folders, listdir).videos;
      var vs := RunSpec(ids, folders, listdir).videos;
      RunGrowth(ids, folders, listdir);
      if vs != prev {
        forall i | 0 <= i < |prev| ensures prev[i].path != OutputVideoPath(last) {
          PathOfEarlierVideo(init, folders, listdir, last, i);
        }
      }
    }
  }

  /** One more id adds at most one video, written to that id's path. */
  lemma RunGrowth(ids: seq<string>, folders: seq<string>, listdir: string -> seq<string>)
    requires ids != []
    ensures var prev := RunSpec(ids[..|ids| - 1], folders, listdir).videos;
      var vs := RunSpec(ids, folders, listdir).videos;
      vs == prev || (|vs| == |prev| + 1 && vs[..|prev|] == prev && vs[|prev|].path == OutputVideoPath(ids[|ids| - 1]))
  {
  }

  /** A video made for the earlier ids is not at the path of an id not among them. */
  lemma PathOfEarlierVideo(ids: seq<string>, folders: seq<string>, listdir: string -> seq<string>, other: string, i: nat)
    requires other !in ids
    requires i < |RunSpec(ids, folders, listdir).videos|
    ensures RunSpec(ids, folders, listdir).videos[i].path != OutputVideoPath(other)
  {
    var v := RunSpec(ids, folders, listdir).videos[i];
    RunVideosSound(ids, folders, listdir);
    assert v in RunSpec(ids, folders, listdir).videos;
    var id :| id in ids && Attempt(id, folders, listdir) == Some(Success(v)) && v.path == OutputVideoPath(id);
    OutputVideoPathInjective(id, other);
  }
}
