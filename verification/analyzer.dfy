/** The result policy of `run_rhubarb`: every failure of the analyzer on a
    chunk is absorbed into an empty cue list. */
module Analyzer {
  import opened Cues

  /** What happened when the analyzer ran on one chunk. */
  datatype Outcome =
    | ExitedNonZero(stderr: string)    // the process reported failure
    | Raised(detail: string)           // launching it, opening or parsing its output threw
    | Parsed(document: ChunkResult)    // exit status 0 and the output file parsed as JSON

  /** The dictionary `run_rhubarb` returns for the outcome. */
  function ChunkResultOf(o: Outcome): (r: ChunkResult)
    ensures o.Parsed? ==> r == o.document
    ensures !o.Parsed? ==> r == EmptyResult
  {
    match o
    case Parsed(document) => document
    case _ => EmptyResult
  }
}
