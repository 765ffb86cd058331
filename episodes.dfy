/** Records shared by the two episode-patching scripts: an episode collection and its start-pose corrections. */
module Episodes {

  /** A coordinate list as it appears in the JSON files (a position or a rotation quaternion). */
  type Vector = seq<real>

  /** Any JSON value, for the fields and keys the scripts carry through verbatim. */
  datatype Json =
    | JNull
    | JBool(b: bool)
    | JNumber(n: real)
    | JString(s: string)
    | JArray(items: seq<Json>)
    | JObject(fields: map<string, Json>)

  /** One entry of the `"episodes"` list: the fields the scripts touch, and all others as they were loaded. */
  datatype Episode = Episode(
    episodeId: string,
    startPosition: Vector,
    startRotation: Vector,
    otherFields: map<string, Json>)

  /** The value stored under an episode id in the correction file. */
  datatype Correction = Correction(position: Vector, rotation: Vector, foundGoal: bool)

  /** The loaded collection object: its `"episodes"` list and every other key. By convention `otherKeys`
      never holds the key `"episodes"` itself; the list lives only in `episodes`. */
  datatype Container = Container(episodes: seq<Episode>, otherKeys: map<string, Json>)

  /** A file the script writes, with the collection object serialised into it. */
  datatype Output = Output(path: string, contents: Container)

  /** Overwrites the start position and rotation of `e` with the corrected ones. */
  function Relocate(e: Episode, c: Correction): (r: Episode)
    ensures r.startPosition == c.position && r.startRotation == c.rotation
    ensures r.episodeId == e.episodeId && r.otherFields == e.otherFields
  {
    e.(startPosition := c.position, startRotation := c.rotation)
  }
}
