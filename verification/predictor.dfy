/** `Predictor.predict`: the request dispatch around the pipeline. */
module Predictor {
  import opened Wrappers
  import opened Paths
  import opened Cues
  import Text
  import Merge
  import StableSort
  import Pipeline

  const ReadyStatus: string := "OK"
  const ReadyMessage: string := "Rhubarb model is ready"
  const NoAudioError: string := "No audio data provided"

  /** The three shapes of dictionary `predict` serialises. */
  datatype Response =
    | Ready                           // {"status", "message", "mouthCues": []}
    | ErrorResponse(error: string)    // {"error", "mouthCues": []}
    | CuesResponse(cues: seq<Cue>)    // {"mouthCues"}

  /** A value of the returned JSON object. */
  datatype JsonValue = Str(text: string) | CueList(cues: seq<Cue>)

  /** The key/value pairs of the JSON object a response is serialised to. */
  function Payload(r: Response): (m: map<string, JsonValue>)
    ensures "mouthCues" in m
    ensures "error" in m ==> m["mouthCues"] == CueList([])
    ensures "status" in m <==> r.Ready?
  {
    match r
    case Ready =>
      map["status" := Str(ReadyStatus), "message" := Str(ReadyMessage), "mouthCues" := CueList([])]
    case ErrorResponse(e) => map["error" := Str(e), "mouthCues" := CueList([])]
    case CuesResponse(cues) => map["mouthCues" := CueList(cues)]
  }

  /** The response and the files that exist afterwards. */
  datatype Reply = Reply(response: Response, files: set<Path>)

  /** `predict(audio_data, wake_up)`. `clockMillis` is `int(time.time() * 1000)`,
      the run's timestamp. Every exception of the pipeline arrives here as
      the `Failure` message of `Pipeline.Process`. */
  function Predict(audioData: string, wakeUp: bool, clockMillis: nat, env: Pipeline.Env, fs: set<Path>)
    : (r: Reply)
    ensures wakeUp ==> r == Reply(Ready, fs)
    ensures !wakeUp && Text.AllSpace(audioData) ==> r == Reply(ErrorResponse(NoAudioError), fs)
    ensures !wakeUp && !Text.AllSpace(audioData) ==>
      var o := Pipeline.Process(clockMillis, env, fs);
      && r.files == o.files
      && (o.result.Failure? ==> r.response == ErrorResponse(o.result.error))
      && (o.result.Success? ==> r.response == CuesResponse(o.result.value))
    ensures r.response.CuesResponse? ==> StableSort.SortedBy(r.response.cues, Merge.StartKey)
  {
    if wakeUp then Reply(Ready, fs)
    else if Text.IsBlank(audioData) then Reply(ErrorResponse(NoAudioError), fs)
    else
      var o := Pipeline.Process(clockMillis, env, fs);
      match o.result
      case Failure(message) => Reply(ErrorResponse(message), o.files)
      case Success(cues) => Reply(CuesResponse(cues), o.files)
  }

  /** A wake-up call answers the readiness payload whatever the audio, the
      clock and the environment, and touches no file. */
  lemma WakeUpIgnoresEverything(a1: string, a2: string, t1: nat, t2: nat,
                                e1: Pipeline.Env, e2: Pipeline.Env, fs: set<Path>)
    ensures Predict(a1, true, t1, e1, fs) == Predict(a2, true, t2, e2, fs)
    ensures Payload(Predict(a1, true, t1, e1, fs).response)
      == map["status" := Str(ReadyStatus), "message" := Str(ReadyMessage), "mouthCues" := CueList([])]
  {
  }

  /** Blank audio is rejected before any processing: the answer and the
      filesystem do not depend on the clock or on the tools. */
  lemma BlankAudioSkipsProcessing(audio: string, t1: nat, t2: nat,
                                  e1: Pipeline.Env, e2: Pipeline.Env, fs: set<Path>)
    requires Text.AllSpace(audio)
    ensures Predict(audio, false, t1, e1, fs) == Predict(audio, false, t2, e2, fs)
    ensures Predict(audio, false, t1, e1, fs).files == fs
    ensures Payload(Predict(audio, false, t1, e1, fs).response)
      == map["error" := Str(NoAudioError), "mouthCues" := CueList([])]
  {
  }

  /** No exception escapes: every answer is one of the three payloads, and a
      failure of any pipeline stage becomes an error payload with no cues. */
  lemma FailuresBecomeErrorPayloads(audio: string, t: nat, env: Pipeline.Env, fs: set<Path>)
    requires !Text.AllSpace(audio)
    requires Pipeline.Process(t, env, fs).result.Failure?
    ensures Payload(Predict(audio, false, t, env, fs).response)
      == map["error" := Str(Pipeline.Process(t, env, fs).result.error), "mouthCues" := CueList([])]
  {
  }
}
