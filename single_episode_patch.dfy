/** The top-level script that patches the start pose of episode "10" only and dumps the whole collection. */
module SingleEpisodePatch {
  import opened Wrappers
  import opened Episodes
  import CustomEpisodes

  const TargetId := "10"
  const OutputPath := "data/datasets/ovmm/val/custom_episodes.json"

  /** The only failure the loop can raise: reading `episode_coord["10"]` when the key is absent. */
  datatype PatchError = KeyError(key: string)

  predicate MentionsTarget(eps: seq<Episode>) {
    exists i :: 0 <= i < |eps| && eps[i].episodeId == TargetId
  }

  /** The loaded list after the loop, given the correction stored under "10". */
  function PatchTarget(eps: seq<Episode>, c: Correction): (r: seq<Episode>)
    ensures |r| == |eps|
    ensures forall i :: 0 <= i < |eps| ==>
      && r[i].episodeId == eps[i].episodeId
      && r[i].otherFields == eps[i].otherFields
      && (eps[i].episodeId != TargetId ==> r[i] == eps[i])
      && (eps[i].episodeId == TargetId ==> r[i].startPosition == c.position && r[i].startRotation == c.rotation)
  {
    if eps == [] then []
    else
      var e := eps[|eps| - 1];
      PatchTarget(eps[..|eps| - 1], c) + [if e.episodeId == TargetId then Relocate(e, c) else e]
  }

  /** The script's loop and dump. The list is patched in place; on the first entry with id "10" and no
      correction for "10" it stops with a `KeyError`, before writing anything. */
  method PatchEpisodeTen(episodes: array<Episode>, otherKeys: map<string, Json>, coord: map<string, Correction>)
    returns (r: Result<Output, PatchError>)
    modifies episodes
    ensures MentionsTarget(old(episodes[..])) && TargetId !in coord ==>
      r == Failure(KeyError(TargetId)) && episodes[..] == old(episodes[..])
    ensures !MentionsTarget(old(episodes[..])) ==>
      r == Success(Output(OutputPath, Container(old(episodes[..]), otherKeys))) && episodes[..] == old(episodes[..])
    ensures TargetId in coord ==>
      r == Success(Output(OutputPath, Container(episodes[..], otherKeys))) &&
      episodes[..] == PatchTarget(old(episodes[..]), coord[TargetId])
  {
    ghost var loaded := episodes[..];
    var i := 0;
    while i < episodes.Length
      invariant 0 <= i <= episodes.Length
      invariant TargetId in coord ==> episodes[..i] == PatchTarget(loaded[..i], coord[TargetId])
      invariant TargetId !in coord ==> episodes[..] == loaded
      invariant TargetId !in coord ==> forall k :: 0 <= k < i ==> loaded[k].episodeId != TargetId
      invariant forall k :: i <= k < episodes.Length ==> episodes[k] == loaded[k]
    {
      assert loaded[..i + 1][..i] == loaded[..i];
      if episodes[i].episodeId == TargetId {
        if TargetId !in coord {
          return Failure(KeyError(TargetId));
        }
        episodes[i] := Relocate(episodes[i], coord[TargetId]);
      }
      assert episodes[..i + 1] == episodes[..i] + [episodes[i]];
      i := i + 1;
    }
    assert loaded[..i] == loaded && episodes[..i] == episodes[..];
    if !MentionsTarget(loaded) && TargetId in coord {
      PatchTargetAbsent(loaded, coord[TargetId]);
    }
    r := Success(Output(OutputPath, Container(episodes[..], otherKeys)));
  }

  /** With no episode "10" the correction is irrelevant and the list comes back as loaded. */
  lemma {:induction false} PatchTargetAbsent(eps: seq<Episode>, c: Correction)
    requires !MentionsTarget(eps)
    ensures PatchTarget(eps, c) == eps
  {
    if eps != [] {
      var init := eps[..|eps| - 1];
      PatchTargetAbsent(init, c);
      assert eps == init + [eps[|eps| - 1]];
    }
  }

  /** The single-id patch is the general patch with a correction map holding only "10". */
  lemma {:induction false} PatchTargetIsPatchAll(eps: seq<Episode>, c: Correction)
    ensures PatchTarget(eps, c) == CustomEpisodes.PatchAll(eps, map[TargetId := c])
  {
    if eps != [] {
      PatchTargetIsPatchAll(eps[..|eps| - 1], c);
    }
  }

  /** Patching the patched list again changes nothing. */
  lemma PatchTargetIdempotent(eps: seq<Episode>, c: Correction)
    ensures PatchTarget(PatchTarget(eps, c), c) == PatchTarget(eps, c)
  {
    PatchTargetIsPatchAll(eps, c);
    PatchTargetIsPatchAll(PatchTarget(eps, c), c);
    CustomEpisodes.PatchAllIdempotent(eps, map[TargetId := c]);
  }
}
