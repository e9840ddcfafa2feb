/** Scratch-file paths. A run is identified by its millisecond timestamp;
    every file a run creates is named after that timestamp and a role, so
    the exact string format of the names is replaced by distinct
    constructors. */
module Paths {

  datatype Path =
    | InputFile(run: nat)                  // /tmp/input-<run>.wav, the decoded upload
    | WavFile(run: nat)                    // /tmp/wav-<run>.wav, the normalised audio
    | OutputFile(run: nat)                 // /tmp/output-<run>.json, never written
    | ChunkWav(run: nat, index: nat)       // /tmp/chunk-<run>-<index>.wav
    | ChunkOutput(run: nat, index: nat)    // /tmp/output-<run>.json-chunk<index>.json
    | Foreign(name: string)                // any file no run of the predictor names

  /** True of the paths that a run with this timestamp may create or remove. */
  predicate OwnedBy(p: Path, run: nat)
  {
    !p.Foreign? && p.run == run
  }
}
