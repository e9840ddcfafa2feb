/** `process_audio_with_rhubarb` and the helpers it calls, with every
    external tool and library call replaced by its outcome, supplied by an
    environment. The filesystem is the set of existing paths. */
module Pipeline {
  import opened Wrappers
  import opened Paths
  import opened Cues
  import Chunking
  import Scratch
  import Merge
  import StableSort
  import Analyzer

  /** What the audio converter did. */
  datatype Conversion =
    | ConverterExited(code: int, stderr: string)
    | ConverterRaised(detail: string)    // the process could not be launched

  /** What the duration prober produced: a number, or the text of the
      exception raised while running it or parsing its output. */
  datatype Probe = Probed(seconds: real) | ProbeRaised(detail: string)

  /** What happened for chunk `i`: whether the extractor wrote the chunk's
      audio file, whether the analyzer wrote its output file, and what the
      analyzer's result was. */
  datatype ChunkRun = ChunkRun(extracted: bool, wroteOutput: bool, analysis: Analyzer.Outcome)

  /** The behaviour of everything outside the model during one run:
      `decodeError` is the text of the exception raised by base64 decoding
      or by opening or writing the input file, if either raises; `undeletable` are the paths whose unlink raises although they
      exist; `unlinkError` is the text of the exception unlink raises. */
  datatype Env = Env(
    decodeError: Option<string>,
    conversion: Conversion,
    probe: Probe,
    chunk: nat -> ChunkRun,
    undeletable: set<Path>,
    unlinkError: string)

  /** A value or the message of the exception raised, with the files that
      exist afterwards. */
  datatype Step<T> = Step(result: Result<T, string>, files: set<Path>)

  /** The message `convert_to_wav` raises for a conversion outcome, or
      `None` when the wav file was written. */
  function ConversionError(c: Conversion): (e: Option<string>)
    ensures e.None? <==> c.ConverterExited? && c.code == 0
    ensures c.ConverterExited? && c.code != 0 ==>
      e == Some("Audio conversion failed: FFmpeg conversion failed: " + c.stderr)
    ensures c.ConverterRaised? ==> e == Some("Audio conversion failed: " + c.detail)
  {
    match c
    case ConverterExited(code, stderr) =>
      if code != 0 then Some("Audio conversion failed: FFmpeg conversion failed: " + stderr) else None
    case ConverterRaised(detail) => Some("Audio conversion failed: " + detail)
  }

  /** The chunk audio files the extraction loop writes. */
  function Extracted(run: nat, env: Env, n: nat): (ps: set<Path>)
    ensures forall i :: 0 <= i < n ==> (ChunkWav(run, i) in ps <==> env.chunk(i).extracted)
    ensures forall p :: p in ps ==> p.ChunkWav? && p.run == run && p.index < n
  {
    set i | 0 <= i < n && env.chunk(i).extracted :: ChunkWav(run, i)
  }

  /** The unlinks of the chunk audio files `i` to `j - 1` all succeed, so the
      loop reaches chunk `j`. */
  predicate UnlinksSucceed(run: nat, env: Env, fs: set<Path>, i: nat, j: nat)
  {
    forall m :: i <= m < j ==> ChunkWav(run, m) in fs && ChunkWav(run, m) !in env.undeletable
  }

  /** The per-chunk loop from chunk `i` on: analyse the chunk, keep its
      result, then unlink its audio file, which raises when the file is
      missing or cannot be deleted. */
  function AnalyzeFrom(run: nat, env: Env, n: nat, i: nat, fs: set<Path>, acc: seq<ChunkResult>)
    : (r: Step<seq<ChunkResult>>)
    requires i <= n && |acc| == i
    decreases n - i
    ensures r.result.Success? <==>
      forall j :: i <= j < n ==> ChunkWav(run, j) in fs && ChunkWav(run, j) !in env.undeletable
    ensures r.result.Failure? ==> r.result.error == env.unlinkError
    ensures r.result.Success? ==>
      && |r.result.value| == n
      && r.result.value[..i] == acc
      && forall j :: i <= j < n ==> r.result.value[j] == Analyzer.ChunkResultOf(env.chunk(j).analysis)
    ensures r.result.Success? ==> forall j :: i <= j < n ==> ChunkWav(run, j) !in r.files
    ensures forall j :: i <= j < n && env.chunk(j).wroteOutput && UnlinksSucceed(run, env, fs, i, j) ==>
      ChunkOutput(run, j) in r.files
    ensures forall p :: p in fs && !p.ChunkWav? ==> p in r.files
    ensures forall p :: p in fs && p.ChunkWav? && (p.run != run || p.index < i) ==> p in r.files
    ensures forall p :: p in r.files && p !in fs ==> p.ChunkOutput? && p.run == run && i <= p.index < n
  {
    if i == n then Step(Success(acc), fs)
    else
      var c := env.chunk(i);
      var fs1 := if c.wroteOutput then fs + {ChunkOutput(run, i)} else fs;
      var wav := ChunkWav(run, i);
      if wav in fs1 && wav !in env.undeletable then
        AnalyzeFrom(run, env, n, i + 1, fs1 - {wav}, acc + [Analyzer.ChunkResultOf(c.analysis)])
      else
        Step(Failure(env.unlinkError), fs1)
  }

  /** The body of the `try` in `process_audio_with_rhubarb`, up to and
      including the merge, without the cleanup. */
  function Attempt(run: nat, env: Env, fs: set<Path>): Step<seq<Cue>>
  {
    match env.decodeError
    case Some(detail) => Step(Failure(detail), fs)
    case None =>
      var fs1 := fs + {InputFile(run)};
      match ConversionError(env.conversion)
      case Some(message) => Step(Failure(message), fs1)
      case None =>
        var fs2 := fs1 + {WavFile(run)};
        match env.probe
        case ProbeRaised(detail) => Step(Failure("Audio chunking failed: " + detail), fs2)
        case Probed(seconds) =>
          var n := |Chunking.Plan(run, seconds)|;
          var fs3 := fs2 + Extracted(run, env, n);
          var analysed := AnalyzeFrom(run, env, n, 0, fs3, []);
          match analysed.result
          case Failure(message) => Step(Failure(message), analysed.files)
          case Success(results) => Step(Merge.MergeResults(results), analysed.files)
  }

  /** The temp files cleaned up after a successful run. */
  function SuccessCleanupList(run: nat): seq<Path>
  {
    [InputFile(run), WavFile(run), OutputFile(run)]
  }

  /** The temp files cleaned up after a failed run: the wav file is not
      among them. */
  function ErrorCleanupList(run: nat): seq<Path>
  {
    [InputFile(run), OutputFile(run)]
  }

  /** `process_audio_with_rhubarb(audio_data, timestamp)` with `run` the
      timestamp: the merged cues or the message of the exception it
      re-raises, and the files left afterwards. */
  function Process(run: nat, env: Env, fs: set<Path>): (o: Step<seq<Cue>>)
    ensures forall p :: !OwnedBy(p, run) ==> (p in o.files <==> p in fs)
    ensures forall p :: p in fs && p.ChunkOutput? ==> p in o.files
    ensures forall p :: p in Attempt(run, env, fs).files && p.ChunkOutput? ==> p in o.files
    ensures o.result.Success? ==>
      forall p :: p in SuccessCleanupList(run) && p !in env.undeletable ==> p !in o.files
    ensures o.result.Failure? ==>
      forall p :: p in ErrorCleanupList(run) && p !in env.undeletable ==> p !in o.files
    ensures o.result.Failure? && env.decodeError.None? && ConversionError(env.conversion).None? ==>
      WavFile(run) in o.files
    ensures o.result.Success? ==>
      Merge.AllTimed(o.result.value) && StableSort.SortedBy(o.result.value, Merge.StartKey)
  {
    var attempt := Attempt(run, env, fs);
    match attempt.result
    case Success(cues) =>
      Step(Success(cues), Scratch.Cleanup(attempt.files, SuccessCleanupList(run), env.undeletable))
    case Failure(message) =>
      Step(Failure(message), Scratch.Cleanup(attempt.files, ErrorCleanupList(run), env.undeletable))
  }

  /** The documents of the first `n` chunks, in chunk order. */
  function ChunkResults(env: Env, n: nat): (rs: seq<ChunkResult>)
    ensures |rs| == n
    ensures forall j :: 0 <= j < n ==> rs[j] == Analyzer.ChunkResultOf(env.chunk(j).analysis)
  {
    seq(n, j requires 0 <= j => Analyzer.ChunkResultOf(env.chunk(j).analysis))
  }

  /** The chunk audio files the extraction loop writes are exactly the
      planned chunk files whose extraction succeeded. */
  lemma ExtractedArePlannedFiles(run: nat, env: Env, seconds: real)
    ensures var plan := Chunking.Plan(run, seconds);
      Extracted(run, env, |plan|) == set c | c in plan && env.chunk(c.index).extracted :: c.path
  {
    var plan := Chunking.Plan(run, seconds);
    var planned := set c | c in plan && env.chunk(c.index).extracted :: c.path;
    forall p | p in Extracted(run, env, |plan|)
      ensures p in planned
    {
      assert plan[p.index] in plan;
    }
  }

  /** A base64 decoding error aborts the run before any file is written:
      the exception's text is the answer and the files are unchanged except
      for the cleanup of the input and output paths. */
  lemma DecodeFailureAborts(run: nat, env: Env, fs: set<Path>)
    requires env.decodeError.Some?
    ensures Process(run, env, fs).result == Failure(env.decodeError.value)
    ensures Process(run, env, fs).files == Scratch.Cleanup(fs, ErrorCleanupList(run), env.undeletable)
  {
  }

  /** A failed conversion aborts the run with the conversion message; no
      wav file is written, so one exists afterwards only if it did before. */
  lemma ConversionFailureAborts(run: nat, env: Env, fs: set<Path>, message: string)
    requires env.decodeError.None?
    requires ConversionError(env.conversion) == Some(message)
    ensures Process(run, env, fs).result == Failure(message)
    ensures WavFile(run) in Process(run, env, fs).files <==> WavFile(run) in fs
    ensures InputFile(run) in Process(run, env, fs).files <==> InputFile(run) in env.undeletable
  {
  }

  /** A failed duration probe aborts the run with "Audio chunking failed: "
      and the exception's text; the wav file already written stays behind. */
  lemma ProbeFailureAborts(run: nat, env: Env, fs: set<Path>, detail: string)
    requires env.decodeError.None? && ConversionError(env.conversion).None?
    requires env.probe == ProbeRaised(detail)
    ensures Process(run, env, fs).result == Failure("Audio chunking failed: " + detail)
    ensures WavFile(run) in Process(run, env, fs).files
    ensures forall i: nat :: ChunkWav(run, i) in Process(run, env, fs).files <==> ChunkWav(run, i) in fs
  {
  }

  /** When decoding, conversion and probing succeed and every planned chunk
      file was extracted and can be deleted, the run's outcome is exactly the
      merge of the chunk documents in chunk order (or the merge's KeyError). */
  lemma ProcessMergesChunks(run: nat, env: Env, fs: set<Path>, seconds: real)
    requires env.decodeError.None? && ConversionError(env.conversion).None?
    requires env.probe == Probed(seconds)
    requires forall j :: 0 <= j < |Chunking.Plan(run, seconds)| ==>
      env.chunk(j).extracted && ChunkWav(run, j) !in env.undeletable
    ensures Process(run, env, fs).result
      == Merge.MergeResults(ChunkResults(env, |Chunking.Plan(run, seconds)|))
  {
    var n := |Chunking.Plan(run, seconds)|;
    var fs3 := fs + {InputFile(run)} + {WavFile(run)} + Extracted(run, env, n);
    var analysed := AnalyzeFrom(run, env, n, 0, fs3, []);
    assert analysed.result.Success?;
    assert analysed.result.value == ChunkResults(env, n);
  }

  /** A planned chunk whose audio file does not exist (the extractor wrote
      nothing and no earlier file has its name) makes the unlink in the loop
      raise, so the whole run fails. */
  lemma MissingChunkFileAborts(run: nat, env: Env, fs: set<Path>, seconds: real, j: nat)
    requires env.decodeError.None? && ConversionError(env.conversion).None?
    requires env.probe == Probed(seconds)
    requires j < |Chunking.Plan(run, seconds)|
    requires !env.chunk(j).extracted && ChunkWav(run, j) !in fs
    ensures Process(run, env, fs).result == Failure(env.unlinkError)
  {
  }

  /** On success with deletable files, no planned chunk's audio file is left,
      while the analyzer's output file of every chunk stays behind. */
  lemma SuccessLeavesChunkOutputs(run: nat, env: Env, fs: set<Path>, seconds: real)
    requires env.probe == Probed(seconds)
    ensures var o := Process(run, env, fs);
      o.result.Success? ==> forall p :: p in Chunking.ChunkPaths(Chunking.Plan(run, seconds)) ==> p !in o.files
    ensures var o := Process(run, env, fs);
      o.result.Success? ==> forall j :: 0 <= j < |Chunking.Plan(run, seconds)| && env.chunk(j).wroteOutput ==>
        ChunkOutput(run, j) in o.files
  {
  }

  /** The cues do not depend on the run's timestamp: two runs on the same
      audio, with the same tool behaviour, give the same outcome although
      their temp files differ. */
  lemma RunIdentifierIrrelevant(run1: nat, run2: nat, env: Env, fs1: set<Path>, fs2: set<Path>, seconds: real)
    requires env.decodeError.None? && ConversionError(env.conversion).None?
    requires env.probe == Probed(seconds)
    requires forall j :: 0 <= j < |Chunking.Plan(run1, seconds)| ==>
      && env.chunk(j).extracted
      && ChunkWav(run1, j) !in env.undeletable
      && ChunkWav(run2, j) !in env.undeletable
    ensures Process(run1, env, fs1).result == Process(run2, env, fs2).result
  {
    ProcessMergesChunks(run1, env, fs1, seconds);
    ProcessMergesChunks(run2, env, fs2, seconds);
  }
}
