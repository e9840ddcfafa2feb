/** The arithmetic of `split_audio_into_chunks`: how many 30-second chunks
    a probed duration yields, where each one starts and which file it is
    extracted to. Durations are reals rather than floats. */
module Chunking {
  import opened Paths

  /** Nominal chunk length in seconds, also passed to the extractor as the
      requested length of every chunk. */
  const ChunkSeconds: int := 30

  /** Python's `int()` on a float: truncation toward zero. */
  function Truncate(x: real): (n: int)
    ensures 0.0 <= x ==> n as real <= x < n as real + 1.0
    ensures x < 0.0 ==> n as real - 1.0 < x <= n as real
  {
    if 0.0 <= x then x.Floor else -((-x).Floor)
  }

  /** `int(duration / chunk_duration) + 1`; it is the bound of
      `range(num_chunks)`, so a value below one yields no chunk at all. */
  function ChunkCount(duration: real): int
  {
    Truncate(duration / ChunkSeconds as real) + 1
  }

  /** One extraction request: chunk `index` asks for `length` seconds
      starting at second `start`, written to `path`. */
  datatype Chunk = Chunk(index: nat, start: int, length: int, path: Path)

  /** The chunks of the normalised audio of run `run`, in index order. */
  function Plan(run: nat, duration: real): (cs: seq<Chunk>)
    ensures |cs| == if ChunkCount(duration) < 0 then 0 else ChunkCount(duration)
    ensures forall i :: 0 <= i < |cs| ==>
      cs[i].index == i && cs[i].length == ChunkSeconds && cs[i].path == ChunkWav(run, i)
    ensures |cs| > 0 ==> cs[0].start == 0
    ensures forall i :: 0 <= i < |cs| - 1 ==> cs[i + 1].start == cs[i].start + cs[i].length
  {
    var n := if ChunkCount(duration) < 0 then 0 else ChunkCount(duration);
    seq(n, i requires 0 <= i => Chunk(i, i * ChunkSeconds, ChunkSeconds, ChunkWav(run, i)))
  }

  /** The paths `split_audio_into_chunks` returns. */
  function ChunkPaths(cs: seq<Chunk>): (ps: seq<Path>)
    ensures |ps| == |cs|
    ensures forall i :: 0 <= i < |cs| ==> ps[i] == cs[i].path
  {
    seq(|cs|, i requires 0 <= i < |cs| => cs[i].path)
  }

  /** The planned paths are pairwise distinct and listed in index order:
      the path at position `i` is the file of chunk `i`. */
  lemma PlannedPathsDistinctInOrder(run: nat, duration: real)
    ensures var ps := ChunkPaths(Plan(run, duration));
      && |ps| == |Plan(run, duration)|
      && (forall i :: 0 <= i < |ps| ==> ps[i] == ChunkWav(run, i))
      && (forall i, j :: 0 <= i < j < |ps| ==> ps[i] != ps[j])
  {
  }

  /** For a probed (non-negative) duration the count is floor(duration / 30)
      plus one, so there is always at least one chunk. */
  lemma ChunkCountOfDuration(duration: real)
    requires 0.0 <= duration
    ensures ChunkCount(duration) == (duration / 30.0).Floor + 1
    ensures ChunkCount(duration) >= 1
  {
  }

  /** A duration that is an exact multiple of 30 seconds still gets a
      trailing chunk, which starts exactly at the end of the audio. */
  lemma ExactMultipleHasTrailingChunk(run: nat, k: nat)
    ensures |Plan(run, 30.0 * k as real)| == k + 1
    ensures Plan(run, 30.0 * k as real)[k].start as real == 30.0 * k as real
  {
  }

  /** Every instant of the audio lies in the window of exactly one chunk. */
  lemma ChunksCoverAudio(run: nat, duration: real, t: real)
    requires 0.0 <= t <= duration
    ensures var i := (t / 30.0).Floor;
      && 0 <= i < |Plan(run, duration)|
      && Plan(run, duration)[i].start as real <= t
      && t < (Plan(run, duration)[i].start + Plan(run, duration)[i].length) as real
    ensures var cs := Plan(run, duration);
      forall j :: 0 <= j < |cs| && cs[j].start as real <= t < (cs[j].start + ChunkSeconds) as real
        ==> j == (t / 30.0).Floor
  {
  }

  /** No chunk starts after the end of the audio; the last one starts in its
      final 30 seconds. */
  lemma LastChunkWithinAudio(run: nat, duration: real)
    requires 0.0 <= duration
    ensures var cs := Plan(run, duration);
      && cs[|cs| - 1].start as real <= duration
      && duration < (cs[|cs| - 1].start + ChunkSeconds) as real
  {
  }

  /** Negative durations, which the prober does not produce but the
      arithmetic admits: `int()` truncates toward zero, so down to -30
      seconds there is still one chunk, and from -30 on there is none. */
  lemma NegativeDuration(run: nat, duration: real)
    requires duration < 0.0
    ensures -30.0 < duration ==> |Plan(run, duration)| == 1
    ensures duration <= -30.0 ==> |Plan(run, duration)| == 0
  {
  }
}
