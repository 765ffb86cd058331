/** `save_custom_episodes`: rewrite the start pose of every episode that has a correction, and write the
    corrected episodes, and those of them whose goal was found, to two collection files. */
module CustomEpisodes {
  import opened Seqs
  import opened Strings
  import opened Episodes

  const CoordPrefix := "datadump/results/eval_hssd/episode_final_coord_"
  const CustomPrefix := "data/datasets/ovmm/val/custom_episodes_"
  const FoundPrefix := "data/datasets/ovmm/val/found_episodes_"

  /** The correction file read for a confidence threshold. */
  function CoordFileName(threshold: string): string { CoordPrefix + threshold + ".json" }

  /** The file that receives every corrected episode. */
  function CustomFileName(threshold: string): string { CustomPrefix + threshold + ".json.gz" }

  /** The file that receives the corrected episodes whose goal was found. */
  function FoundFileName(threshold: string): string { FoundPrefix + threshold + ".json.gz" }

  predicate HasCorrection(coord: map<string, Correction>, e: Episode) {
    e.episodeId in coord
  }

  predicate GoalFound(coord: map<string, Correction>, e: Episode) {
    e.episodeId in coord && coord[e.episodeId].foundGoal
  }

  /** What the loop leaves in one entry of the loaded list. */
  function PatchOne(e: Episode, coord: map<string, Correction>): Episode {
    if e.episodeId in coord then Relocate(e, coord[e.episodeId]) else e
  }

  /** The loaded list after the loop, whose entries it mutates in place. */
  function PatchAll(eps: seq<Episode>, coord: map<string, Correction>): (r: seq<Episode>)
    ensures |r| == |eps|
    ensures forall i :: 0 <= i < |eps| ==>
      && r[i].episodeId == eps[i].episodeId
      && r[i].otherFields == eps[i].otherFields
      && (eps[i].episodeId !in coord ==> r[i] == eps[i])
      && (eps[i].episodeId in coord ==>
            r[i].startPosition == coord[eps[i].episodeId].position &&
            r[i].startRotation == coord[eps[i].episodeId].rotation)
  {
    if eps == [] then [] else PatchAll(eps[..|eps| - 1], coord) + [PatchOne(eps[|eps| - 1], coord)]
  }

  /** The list `new_episodes` built by the loop. */
  function Updated(eps: seq<Episode>, coord: map<string, Correction>): (r: seq<Episode>)
    ensures forall k :: 0 <= k < |r| ==>
      && r[k].episodeId in coord
      && r[k].startPosition == coord[r[k].episodeId].position
      && r[k].startRotation == coord[r[k].episodeId].rotation
  {
    if eps == [] then [] else
      var init, e := Updated(eps[..|eps| - 1], coord), eps[|eps| - 1];
      if e.episodeId in coord then init + [Relocate(e, coord[e.episodeId])] else init
  }

  /** The list `found_episodes` built by the loop. */
  function Found(eps: seq<Episode>, coord: map<string, Correction>): (r: seq<Episode>)
    ensures forall k :: 0 <= k < |r| ==> r[k].episodeId in coord && coord[r[k].episodeId].foundGoal
  {
    if eps == [] then [] else
      var init, e := Found(eps[..|eps| - 1], coord), eps[|eps| - 1];
      if e.episodeId in coord && coord[e.episodeId].foundGoal then init + [Relocate(e, coord[e.episodeId])]
      else init
  }

  /** The files written after the loop, in order: each list only when it is non-empty. */
  function Emitted(threshold: string, updated: seq<Episode>, found: seq<Episode>, otherKeys: map<string, Json>): seq<Output> {
    (if |updated| > 0 then [Output(CustomFileName(threshold), Container(updated, otherKeys))] else []) +
    (if |found| > 0 then [Output(FoundFileName(threshold), Container(found, otherKeys))] else [])
  }

  /** The whole function, with the loaded episode list as an array whose entries are patched in place. */
  method SaveCustomEpisodes(threshold: string, episodes: array<Episode>, otherKeys: map<string, Json>,
                            coord: map<string, Correction>)
    returns (updated: seq<Episode>, found: seq<Episode>, written: seq<Output>)
    modifies episodes
    ensures episodes[..] == PatchAll(old(episodes[..]), coord)
    ensures updated == Updated(old(episodes[..]), coord)
    ensures found == Found(old(episodes[..]), coord)
    ensures written == Emitted(threshold, updated, found, otherKeys)
  {
    updated, found := PatchEpisodes(episodes, coord);
    written := WriteEpisodeFiles(threshold, Container(episodes[..], otherKeys), updated, found);
  }

  /** The `for episode in episodes` loop: patches the loaded list in place and builds both lists. */
  method PatchEpisodes(episodes: array<Episode>, coord: map<string, Correction>)
    returns (updated: seq<Episode>, found: seq<Episode>)
    modifies episodes
    ensures episodes[..] == PatchAll(old(episodes[..]), coord)
    ensures updated == Updated(old(episodes[..]), coord)
    ensures found == Found(old(episodes[..]), coord)
  {
    ghost var loaded := episodes[..];
    found, updated := [], [];
    for i := 0 to episodes.Length
      invariant episodes[..i] == PatchAll(loaded[..i], coord)
      invariant forall k :: i <= k < episodes.Length ==> episodes[k] == loaded[k]
      invariant updated == Updated(loaded[..i], coord)
      invariant found == Found(loaded[..i], coord)
    {
      PrefixStep(loaded, i, coord);
      var e := episodes[i];
      if e.episodeId in coord {
        e := Relocate(e, coord[e.episodeId]);
        episodes[i] := e;
        updated := updated + [e];
        if coord[e.episodeId].foundGoal {
          found := found + [e];
        }
      }
      assert episodes[..i + 1] == episodes[..i] + [e];
    }
    assert loaded[..episodes.Length] == loaded && episodes[..episodes.Length] == episodes[..];
  }

  /** The two `if len(...) > 0` blocks: `episodes_obj["episodes"]` is overwritten before each dump. */
  method WriteEpisodeFiles(threshold: string, episodesObj: Container, updated: seq<Episode>, found: seq<Episode>)
    returns (written: seq<Output>)
    ensures written == Emitted(threshold, updated, found, episodesObj.otherKeys)
  {
    var container := episodesObj;
    written := [];
    if |updated| > 0 {
      container := container.(episodes := updated);
      written := written + [Output(CustomFileName(threshold), container)];
    }
    if |found| > 0 {
      container := container.(episodes := found);
      written := written + [Output(FoundFileName(threshold), container)];
    }
  }

  /** How the three lists grow by one loop iteration. */
  lemma PrefixStep(s: seq<Episode>, i: nat, coord: map<string, Correction>)
    requires i < |s|
    ensures PatchAll(s[..i + 1], coord) == PatchAll(s[..i], coord) + [PatchOne(s[i], coord)]
    ensures Updated(s[..i + 1], coord) ==
            Updated(s[..i], coord) + if s[i].episodeId in coord then [Relocate(s[i], coord[s[i].episodeId])] else []
    ensures Found(s[..i + 1], coord) ==
            Found(s[..i], coord) + if GoalFound(coord, s[i]) then [Relocate(s[i], coord[s[i].episodeId])] else []
  {
    assert s[..i + 1][..i] == s[..i];
  }

  /** The corrected list is exactly the patched input list restricted to the ids with a correction,
      in input order and with repeated ids kept. */
  lemma {:induction false} UpdatedIsSelection(eps: seq<Episode>, coord: map<string, Correction>)
    ensures Updated(eps, coord) == Filter(PatchAll(eps, coord), e => HasCorrection(coord, e))
  {
    if eps != [] {
      UpdatedIsSelection(eps[..|eps| - 1], coord);
    }
  }

  /** The found list is exactly the corrected list restricted to the episodes whose goal was found. */
  lemma {:induction false} FoundIsSelection(eps: seq<Episode>, coord: map<string, Correction>)
    ensures Found(eps, coord) == Filter(Updated(eps, coord), e => GoalFound(coord, e))
  {
    if eps != [] {
      FoundIsSelection(eps[..|eps| - 1], coord);
    }
  }

  /** Found episodes are corrected episodes, in the same relative order, so never more of them. */
  lemma FoundWithinUpdated(eps: seq<Episode>, coord: map<string, Correction>)
    ensures IsSubsequence(Found(eps, coord), Updated(eps, coord))
    ensures forall e :: e in Found(eps, coord) ==> e in Updated(eps, coord)
    ensures |Found(eps, coord)| <= |Updated(eps, coord)|
  {
    FoundIsSelection(eps, coord);
    FilterIsSubsequence(Updated(eps, coord), e => GoalFound(coord, e));
    forall e | e in Found(eps, coord) ensures e in Updated(eps, coord) {
      FilterMembership(Updated(eps, coord), e => GoalFound(coord, e), e);
    }
  }

  /** An entry is in the corrected list iff it is, after patching, an input entry with a correction;
      and it occurs there as often as in the patched input. */
  lemma UpdatedMembership(eps: seq<Episode>, coord: map<string, Correction>, x: Episode)
    ensures x in Updated(eps, coord) <==> x in PatchAll(eps, coord) && x.episodeId in coord
    ensures multiset(Updated(eps, coord))[x] ==
            if x.episodeId in coord then multiset(PatchAll(eps, coord))[x] else 0
  {
    UpdatedIsSelection(eps, coord);
    FilterMembership(PatchAll(eps, coord), e => HasCorrection(coord, e), x);
    FilterMultiplicity(PatchAll(eps, coord), e => HasCorrection(coord, e), x);
  }

  /** An episode without a correction is left as loaded and is written to neither file. */
  lemma UncorrectedExcluded(eps: seq<Episode>, coord: map<string, Correction>, i: nat)
    requires i < |eps| && eps[i].episodeId !in coord
    ensures PatchAll(eps, coord)[i] == eps[i]
    ensures forall e :: e in Updated(eps, coord) ==> e.episodeId != eps[i].episodeId
    ensures forall e :: e in Found(eps, coord) ==> e.episodeId != eps[i].episodeId
  {
  }

  /** Running the patch over its own result changes nothing more, and selects the same episodes. */
  lemma {:induction false} PatchAllIdempotent(eps: seq<Episode>, coord: map<string, Correction>)
    ensures PatchAll(PatchAll(eps, coord), coord) == PatchAll(eps, coord)
    ensures Updated(PatchAll(eps, coord), coord) == Updated(eps, coord)
  {
    if eps != [] {
      var init := eps[..|eps| - 1];
      PatchAllIdempotent(init, coord);
      var p := PatchAll(eps, coord);
      assert p[..|p| - 1] == PatchAll(init, coord);
    }
  }

  /** A file is written for the corrected list iff it is non-empty, and for the found list iff that is
      non-empty; the two names never collide. */
  lemma EmittedFiles(threshold: string, updated: seq<Episode>, found: seq<Episode>, otherKeys: map<string, Json>)
    ensures (exists o :: o in Emitted(threshold, updated, found, otherKeys) && o.path == CustomFileName(threshold))
            <==> |updated| > 0
    ensures (exists o :: o in Emitted(threshold, updated, found, otherKeys) && o.path == FoundFileName(threshold))
            <==> |found| > 0
    ensures forall o :: o in Emitted(threshold, updated, found, otherKeys) ==> o.contents.otherKeys == otherKeys
  {
    CustomFoundDistinct(threshold, threshold);
    var w := Emitted(threshold, updated, found, otherKeys);
    if |updated| > 0 { assert w[0].path == CustomFileName(threshold); }
    if |found| > 0 { assert w[|w| - 1].path == FoundFileName(threshold); }
  }

  /** Different thresholds give different file names, for each of the three files. */
  lemma FileNamesInjective(t1: string, t2: string)
    requires t1 != t2
    ensures CoordFileName(t1) != CoordFileName(t2)
    ensures CustomFileName(t1) != CustomFileName(t2)
    ensures FoundFileName(t1) != FoundFileName(t2)
  {
    if CoordFileName(t1) == CoordFileName(t2) { AffixInjective(CoordPrefix, t1, t2, ".json"); }
    if CustomFileName(t1) == CustomFileName(t2) { AffixInjective(CustomPrefix, t1, t2, ".json.gz"); }
    if FoundFileName(t1) == FoundFileName(t2) { AffixInjective(FoundPrefix, t1, t2, ".json.gz"); }
  }

  /** No threshold's corrected-episodes file is any threshold's found-episodes file. */
  lemma CustomFoundDistinct(t1: string, t2: string)
    ensures CustomFileName(t1) != FoundFileName(t2)
  {
    var k := |"data/datasets/ovmm/val/"|;
    assert CustomFileName(t1)[k] == CustomPrefix[k] == 'c';
    assert FoundFileName(t2)[k] == FoundPrefix[k] == 'f';
  }
}
