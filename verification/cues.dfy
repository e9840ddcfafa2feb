/** Mouth cues and the per-chunk documents the lip-sync analyzer exports. */
module Cues {
  import opened Wrappers

  /** One entry of a `mouthCues` list. Only `start` is ever read (as the
      sort key); `end` and `value` are carried through untouched. A JSON
      object without a given key has `None` for it. */
  datatype Cue = Cue(start: Option<real>, end: Option<real>, value: Option<string>)

  /** The JSON document one chunk yields; `mouthCues` is `None` when the
      document has no "mouthCues" key (an empty document included). */
  datatype ChunkResult = ChunkResult(mouthCues: Option<seq<Cue>>)

  /** `{"mouthCues": []}`, what a failed chunk contributes. */
  const EmptyResult: ChunkResult := ChunkResult(Some([]))
}
