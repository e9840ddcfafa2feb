# Rhubarb lip-sync predictor: a verified model of its decision layer

`predict.py` turns a base64 audio upload into a list of mouth cues
(visemes with start times) for lip-sync animation. Most of it drives
external tools: ffmpeg converts and cuts the audio, ffprobe measures it,
and the Rhubarb analyzer produces cues for each 30-second chunk. This
project models the pure decisions inside that plumbing, with every tool
and library call replaced by its outcome:

- **Request dispatch** (`Predictor`). A wake-up call answers a fixed
  readiness payload. Blank audio answers a fixed error. Any exception of
  the pipeline becomes an error payload with an empty `mouthCues` list.
- **Chunk planning** (`Chunking`). A probed duration `d` gives
  `int(d / 30) + 1` chunks. Chunk `i` starts at `30 * i`, asks for 30
  seconds and is written to its own file.
- **Analyzer result policy and merge** (`Analyzer`, `Merge`,
  `StableSort`). A failed chunk yields `{"mouthCues": []}`. Documents
  without the key are skipped. The cue lists are concatenated in chunk
  order and sorted stably by `start`.
- **Temp-file cleanup** (`Scratch`). Each listed path is unlinked if it
  exists. A failing unlink is swallowed.
- **The run itself** (`Pipeline`). This is `process_audio_with_rhubarb` over
  a filesystem modelled as the set of existing paths. It covers the exact
  cleanup lists of the success and error paths.

The filesystem is a `set<Path>`. Paths are constructors indexed by the
run's timestamp and the chunk number, so distinct chunks have distinct
files. Durations and cue times are `real`s. The tools' behaviour comes
from an environment value (`Pipeline.Env`): the decode error, the
converter's exit status, the probed duration, and for each chunk whether
its audio and output files were written and what the analyzer returned.
It also holds the paths whose unlink fails.

The model follows the code as written:

- Cue timestamps are **not** rebased by the chunk's offset. The merge
  concatenates the analyzer's chunk-local times verbatim
  (`Merge.MergeKeepsCuesVerbatim`).
- The error path does not remove the normalised wav file
  (`Pipeline.Process`, `Pipeline.ConversionFailureAborts`,
  `Pipeline.ProbeFailureAborts`).
- The analyzer's per-chunk output files are never removed by a run,
  whether it succeeds or fails (`Pipeline.Process`,
  `Pipeline.SuccessLeavesChunkOutputs`).
- When the unlink of chunk `k`'s audio file raises, the audio files of
  chunk `k` and of every later chunk stay behind, because the error-path
  cleanup does not list chunk files.

So a run does not leave the scratch directory clean, and the model makes
no such claim.

Python sorts with Timsort. The model sorts by insertion. `StableSort.SortIsUnique`
proves that every stable ascending sort gives the same output, so the
choice of algorithm cannot be observed.

## Model

| member | source | states |
|---|---|---|
| `Text.Strip` | predict.py:32 | `strip()` returns an infix of the input with only whitespace cut from each end; it starts and ends with non-whitespace; it is empty exactly when the input is all whitespace |
| `Text.BlankIffAllSpace` | predict.py:32 | the blank-audio guard holds exactly for the empty string and strings made only of whitespace |
| `StableSort.Sort` | predict.py:85 | the sorted list is in ascending `start` order and is a permutation (same multiset) of its input |
| `StableSort.SortStable` | predict.py:85 | the sort is stable: for every key, the elements with that key appear in their input order |
| `StableSort.SortedSameKeyOrderEqual` | predict.py:85 | two sorted lists with the same per-key subsequences are equal |
| `StableSort.SortIsUnique` | predict.py:85 | any sorted list that keeps each key's elements in input order equals the model's sort, so it equals what `list.sort` returns |
| `StableSort.SortOfSorted` | predict.py:85 | sorting an already sorted list leaves it unchanged (the sort is idempotent) |
| `Analyzer.ChunkResultOf` | predict.py:164-192 | a non-zero exit or any exception while reading or parsing the output gives `{"mouthCues": []}`; a parsed document is returned as it is |
| `Merge.MergeResults` | predict.py:79-85 | succeeds exactly when every concatenated cue has a start, otherwise fails with `KeyError('start')`; on success the list is sorted by start, is a permutation of the chunk lists concatenated in chunk order, and keeps equal starts in concatenation order |
| `Merge.ConcatAppend` | predict.py:80-82 | concatenating the cue lists of two runs of chunk results is the concatenation of each run's lists |
| `Merge.ConcatMember` | predict.py:80-82 | every concatenated cue belongs to the cue list of some chunk |
| `Merge.EmptyContributionNeutral` | predict.py:79-85 | a chunk that adds no cues, wherever it sits, leaves the merge equal to the merge of the other chunks |
| `Merge.FailedChunkDropped` | predict.py:180-192 | replacing a chunk's result with an analyzer failure gives the merge of the remaining chunks: no error, no duplicate, no reordering |
| `Merge.MergeKeepsCuesVerbatim` | predict.py:80-85 | every merged cue, start time included, is a cue of some chunk's own document: nothing is rebased or invented |
| `Merge.MergeOfOrderedIsConcat` | predict.py:79-85 | if the concatenation is already in start order, the merge returns it unchanged |
| `Chunking.Truncate` | predict.py:138 | Python `int()` on a float truncates toward zero: floor for non-negative values, ceiling for negative ones |
| `Chunking.Plan` | predict.py:137-157 | there are `int(d/30)+1` chunks (none if that is negative); chunk `i` has index `i`, length 30 and its own file; the first starts at 0; each starts where the previous one ends |
| `Chunking.ChunkPaths` | predict.py:140-159 | the returned path list has one path per chunk, in index order |
| `Chunking.PlannedPathsDistinctInOrder` | predict.py:140-157 | the returned paths are pairwise distinct, and the path at position `i` is the file of chunk `i` |
| `Chunking.ChunkCountOfDuration` | predict.py:138 | for a non-negative duration the count is `floor(d/30) + 1`, which is at least 1 |
| `Chunking.ExactMultipleHasTrailingChunk` | predict.py:138-141 | a duration of exactly `30k` seconds gives `k+1` chunks; the last starts exactly at the end of the audio |
| `Chunking.ChunksCoverAudio` | predict.py:138-148 | every instant in `[0, d]` lies in the window of chunk `floor(t/30)` and in no other chunk's window |
| `Chunking.LastChunkWithinAudio` | predict.py:138-141 | the last chunk starts no later than the end of the audio, and its window reaches past the end |
| `Chunking.NegativeDuration` | predict.py:138-140 | a negative duration above -30 still gives one chunk, because of truncation; -30 or below gives none |
| `Scratch.Cleanup` | predict.py:194-203 | afterwards no listed path that can be deleted exists; unlisted paths and paths whose unlink fails keep their state; no path appears |
| `Scratch.CleanupRemovesExactlyListed` | predict.py:198-203 | when every delete succeeds, the remaining files are exactly the earlier ones minus the listed ones |
| `Pipeline.ConversionError` | predict.py:97-119 | conversion fails unless the converter exits with 0; a non-zero exit reports the converter's stderr under both message prefixes |
| `Pipeline.Extracted` | predict.py:140-157 | the extraction loop writes the chunk file of each planned index whose extraction succeeded, and nothing else |
| `Pipeline.ExtractedArePlannedFiles` | predict.py:140-157 | the chunk audio files written are exactly the paths of the planned chunks whose extraction succeeded |
| `Pipeline.DecodeFailureAborts` | predict.py:57-61 | a base64 decoding error makes the run fail with that exception's text before any file is written; only the error-path cleanup touches files |
| `Pipeline.ConversionFailureAborts` | predict.py:63-64 | a failed conversion makes the run fail with the conversion message; a wav file exists afterwards only if it existed before; the input file is removed unless its unlink fails |
| `Pipeline.ProbeFailureAborts` | predict.py:128-162 | a failed duration probe makes the run fail with "Audio chunking failed: " and the exception's text; the wav file stays behind and no chunk file is written or removed |
| `Pipeline.AnalyzeFrom` | predict.py:69-76 | the chunk loop fails exactly when some remaining chunk file is missing or cannot be unlinked; on success it returns one analyzer result per chunk in index order and removes each chunk's audio file; every output file the analyzer wrote for a chunk the loop reached stays, whether the loop later fails or not; it touches no other file |
| `Pipeline.Process` | predict.py:50-95 | files of other runs are untouched; analyzer output files are never removed, whether they existed before the run or were written during it, on success and on failure; success removes input, wav and output; failure removes input and output but keeps a wav file already written; successful cues are sorted by start |
| `Pipeline.ProcessMergesChunks` | predict.py:57-90 | when decode, conversion and probing succeed and every chunk file can be unlinked, the outcome is exactly the merge of the chunk results in chunk order |
| `Pipeline.MissingChunkFileAborts` | predict.py:67-95 | a planned chunk whose audio file was never written makes the unlink in the loop raise, so the run fails |
| `Pipeline.RunIdentifierIrrelevant` | predict.py:39-90 | when decoding, conversion and probing succeed and every planned chunk file is written and deletable, two runs with different timestamps give the same result; only their temp file names differ |
| `Pipeline.SuccessLeavesChunkOutputs` | predict.py:69-90 | after a successful run none of the chunk paths the split returned remains, but every analyzer output file that was written does |
| `Predictor.Payload` | predict.py:25-48 | every payload has a `mouthCues` key; an error payload's `mouthCues` is empty; only the readiness payload has `status` |
| `Predictor.Predict` | predict.py:16-48 | wake-up returns the readiness payload and touches nothing; all-whitespace audio returns the no-audio error and touches nothing; otherwise the answer is the pipeline's cues or its exception message, and the files are the pipeline's; returned cues are sorted by start |
| `Predictor.WakeUpIgnoresEverything` | predict.py:24-29 | a wake-up call gives the same reply whatever the audio, clock and tool behaviour; the payload is `{"status": "OK", "message": "Rhubarb model is ready", "mouthCues": []}` |
| `Predictor.BlankAudioSkipsProcessing` | predict.py:32-36 | for blank audio the reply does not depend on the clock or the tools; no file changes; the payload is `{"error": "No audio data provided", "mouthCues": []}` |
| `Predictor.FailuresBecomeErrorPayloads` | predict.py:47-48 | a pipeline failure reaches the caller as `{"error": <message>, "mouthCues": []}`; no exception escapes |

## Left out

- Subprocess calls (ffmpeg conversion, ffprobe, ffmpeg chunk extraction,
  rhubarb) are not modelled. They become outcomes in `Pipeline.Env`.
- The model assumes the converter writes the wav file exactly when it
  exits with 0. Chunk extraction and analyzer output writes are per-chunk
  flags. An analyzer result that parsed although no output file was
  written is not excluded.
- A launch failure of the chunk-extraction ffmpeg is not modelled. It
  would raise inside `split_audio_into_chunks` and be reported as
  "Audio chunking failed: ...".
- Base64 decoding, JSON parsing and serialisation, and file writes are
  library calls; a failure to write the input file is folded into the
  decode error. Their exception texts are opaque strings taken from the
  environment. So is the text of a failed `os.unlink`.
- A parsed analyzer document is a `ChunkResult`: an optional cue list.
  Documents that are not objects, a `mouthCues` value that is not a list,
  and `start` values that are not numbers are not modelled.
- Floats are reals. So ffprobe output such as `nan` or `inf`, and the
  rounding of `duration / 30`, are not modelled.
- `time.time()` is the parameter `clockMillis`. The exact strings of the
  temp paths are replaced by distinct constructors.
- Logging through `print` is not modelled.
- `audio_data` is a string. A `None` value is not modelled.
- Pipeline.RunIdentifierIrrelevant: failure messages are not covered. In
  the code the text of a failed chunk unlink names the timestamped chunk
  path, so it differs per run; the model takes it as one opaque string.
