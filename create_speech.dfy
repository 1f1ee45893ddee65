/**
 * The "Create speech" action: which variable it declares, and its executor,
 * which validates its options, asks the provider for audio, uploads the audio
 * and stores the resulting URL in the chosen variable.
 */
module CreateSpeech {
  import opened Wrappers
  import opened JsStrings
  import opened ForgeHost

  /**
   * The action's options as the host hands them over; every field may be
   * `undefined`. `voice` is one of the provider's voice names.
   */
  datatype SpeechOptions = SpeechOptions(
    model: Option<string>,
    input: Option<string>,
    voice: Option<string>,
    saveUrlInVariableId: Option<string>)

  type Bytes = seq<bv8>

  /** The body of one `audio.speech.create` request. */
  datatype SpeechRequest = SpeechRequest(input: string, voice: string, model: string)

  /** The arguments of one `uploadFileToBucket` call. */
  datatype UploadRequest = UploadRequest(file: Bytes, key: string, mimeType: string)

  const InputEmptyMessage := "Create speech input is empty"
  const VoiceEmptyMessage := "Create speech voice is empty"
  const SaveVariableEmptyMessage := "Create speech save variable is empty"
  const GenerateContext := "While generating speech"
  const AudioKeyPrefix := "tmp/openai/audio/"
  const AudioKeySuffix := ".mp3"
  const AudioMimeType := "audio/mpeg"

  /** The variables the action may set: the chosen one, when one is chosen. */
  function GetSetVariableIds(options: SpeechOptions): (ids: seq<string>)
    ensures |ids| <= 1
    ensures ids != [] <==> IsTruthy(options.saveUrlInVariableId)
    ensures forall id :: id in ids ==> options.saveUrlInVariableId == Some(id) && id != ""
  {
    if IsTruthy(options.saveUrlInVariableId) then [options.saveUrlInVariableId.value] else []
  }

  /**
   * The storage key of an upload: the two generated ids between a fixed
   * prefix and a fixed extension, so the ids can be read back from the key.
   */
  function AudioKey(id1: string, id2: string): (key: string)
    ensures IsPrefix(AudioKeyPrefix, key) && IsSuffix(AudioKeySuffix, key)
    ensures |key| == |AudioKeyPrefix| + |id1 + id2| + |AudioKeySuffix|
    ensures key[|AudioKeyPrefix|..|key| - |AudioKeySuffix|] == id1 + id2
  {
    AudioKeyPrefix + (id1 + id2) + AudioKeySuffix
  }

  /**
   * Equal keys come from equal `createId() + createId()` strings. The pair
   * itself is not determined: `AudioKey("ab", "c") == AudioKey("a", "bc")`.
   */
  lemma AudioKeyIsInjective(a1: string, a2: string, b1: string, b2: string)
    requires AudioKey(a1, a2) == AudioKey(b1, b2)
    ensures a1 + a2 == b1 + b2
  {
    var k := AudioKey(a1, a2);
    assert a1 + a2 == k[|AudioKeyPrefix|..|k| - |AudioKeySuffix|] == b1 + b2;
  }

  /** When the first generated ids have the same length, equal keys come from equal pairs of ids. */
  lemma AudioKeyDeterminesIds(a1: string, a2: string, b1: string, b2: string)
    requires |a1| == |b1|
    requires AudioKey(a1, a2) == AudioKey(b1, b2)
    ensures a1 == b1 && a2 == b2
  {
    AudioKeyIsInjective(a1, a2, b1, b2);
    assert a1 == (a1 + a2)[..|a1|] == (b1 + b2)[..|b1|] == b1;
    assert a2 == (a1 + a2)[|a1|..] == (b1 + b2)[|b1|..] == b2;
  }

  /** Everything one run of the executor does to the outside world, in order per collaborator. */
  datatype Effects = Effects(
    logs: seq<LogEntry>,
    variableWrites: seq<seq<VariableUpdate>>,
    speechRequests: seq<SpeechRequest>,
    uploads: seq<UploadRequest>)

  /** The message of the first required option that is missing, if any. */
  function FirstMissingOption(options: SpeechOptions): (message: Option<string>)
    ensures message == None <==>
              IsTruthy(options.input) && IsTruthy(options.voice) && IsTruthy(options.saveUrlInVariableId)
    ensures !IsTruthy(options.input) ==> message == Some(InputEmptyMessage)
    ensures IsTruthy(options.input) && !IsTruthy(options.voice) ==> message == Some(VoiceEmptyMessage)
    ensures IsTruthy(options.input) && IsTruthy(options.voice) && !IsTruthy(options.saveUrlInVariableId) ==>
              message == Some(SaveVariableEmptyMessage)
  {
    if !IsTruthy(options.input) then Some(InputEmptyMessage)
    else if !IsTruthy(options.voice) then Some(VoiceEmptyMessage)
    else if !IsTruthy(options.saveUrlInVariableId) then Some(SaveVariableEmptyMessage)
    else None
  }

  /**
   * What `run.server` does, given what the provider answers to the speech
   * request, what the uploader answers, and the two ids `createId` produces.
   */
  function Run(options: SpeechOptions, defaultVoiceModel: string,
               speech: Result<Bytes, Raised>, upload: Result<string, Raised>,
               id1: string, id2: string): (e: Effects)
    // a missing option is logged on its own: nothing is requested, uploaded or written
    ensures FirstMissingOption(options).Some? ==>
              e == Effects([Message(FirstMissingOption(options).value)], [], [], [])
    // past validation, exactly one speech request, with the model defaulted only when absent
    ensures FirstMissingOption(options).None? ==>
              e.speechRequests == [SpeechRequest(options.input.value, options.voice.value,
                                                 if options.model.Some? then options.model.value else defaultVoiceModel)]
    // the upload happens exactly when the speech request succeeded
    ensures |e.uploads| == (if FirstMissingOption(options).None? && speech.Success? then 1 else 0)
    ensures forall u :: u in e.uploads ==>
              speech.Success? && u.file == speech.value && u.mimeType == AudioMimeType &&
              IsPrefix(AudioKeyPrefix, u.key) && IsSuffix(AudioKeySuffix, u.key)
    // success: exactly one write of the uploaded URL, and no log
    ensures FirstMissingOption(options).None? && speech.Success? && upload.Success? ==>
              e.logs == [] && e.variableWrites == [[VariableUpdate(options.saveUrlInVariableId.value, upload.value)]]
    // failure of either call: exactly one error log, and no write
    ensures FirstMissingOption(options).None? && (speech.Failure? || upload.Failure?) ==>
              e.variableWrites == [] && |e.logs| == 1 && e.logs[0].Report? &&
              e.logs[0].diagnostic.context == GenerateContext &&
              e.logs[0].diagnostic.cause == (if speech.Failure? then speech.error else upload.error)
    // every run leaves exactly one trace: a log entry or a variable write, never both
    ensures |e.logs| + |e.variableWrites| == 1
    // only the variable the action declares is ever written
    ensures forall w, u :: w in e.variableWrites && u in w ==> u.id in GetSetVariableIds(options)
  {
    match FirstMissingOption(options)
    case Some(message) => Effects([Message(message)], [], [], [])
    case None =>
      var model := if options.model.Some? then options.model.value else defaultVoiceModel;
      var request := SpeechRequest(options.input.value, options.voice.value, model);
      match speech
      case Failure(err) =>
        Effects([Report(ParseUnknownError(err, GenerateContext))], [], [request], [])
      case Success(audio) =>
        var stored := UploadRequest(audio, AudioKey(id1, id2), AudioMimeType);
        match upload
        case Failure(err) =>
          Effects([Report(ParseUnknownError(err, GenerateContext))], [], [request], [stored])
        case Success(url) =>
          Effects([], [[VariableUpdate(options.saveUrlInVariableId.value, url)]], [request], [stored])
  }

  /**
   * The text-to-speech endpoint. It records every request it receives and
   * answers each with `answer`, the audio or the error the provider gives.
   */
  class SpeechApi {
    const answer: Result<Bytes, Raised>
    var requests: seq<SpeechRequest>

    constructor (answer: Result<Bytes, Raised>)
      ensures this.answer == answer && requests == []
    {
      this.answer := answer;
      requests := [];
    }

    method Create(request: SpeechRequest) returns (r: Result<Bytes, Raised>)
      modifies this
      ensures requests == old(requests) + [request]
      ensures r == answer
    {
      requests := requests + [request];
      r := answer;
    }
  }

  /** The object-storage uploader: records every upload and answers with `answer`, a URL or an error. */
  class Bucket {
    const answer: Result<string, Raised>
    var uploads: seq<UploadRequest>

    constructor (answer: Result<string, Raised>)
      ensures this.answer == answer && uploads == []
    {
      this.answer := answer;
      uploads := [];
    }

    method UploadFile(file: Bytes, key: string, mimeType: string) returns (r: Result<string, Raised>)
      modifies this
      ensures uploads == old(uploads) + [UploadRequest(file, key, mimeType)]
      ensures r == answer
    {
      uploads := uploads + [UploadRequest(file, key, mimeType)];
      r := answer;
    }
  }

  /**
   * `run.server`: the early-return checks, then the speech request, the
   * upload and the variable write, with any failure of the two calls logged.
   * `id1` and `id2` are the values of the two `createId()` calls.
   */
  method RunServer(options: SpeechOptions, defaultVoiceModel: string, id1: string, id2: string,
                   logs: Logs, variables: Variables, api: SpeechApi, bucket: Bucket)
    modifies logs, variables, api, bucket
    ensures var e := Run(options, defaultVoiceModel, api.answer, bucket.answer, id1, id2);
            && logs.entries == old(logs.entries) + e.logs
            && variables.writes == old(variables.writes) + e.variableWrites
            && api.requests == old(api.requests) + e.speechRequests
            && bucket.uploads == old(bucket.uploads) + e.uploads
  {
    if !IsTruthy(options.input) {
      logs.Add(Message(InputEmptyMessage));
      return;
    }
    if !IsTruthy(options.voice) {
      logs.Add(Message(VoiceEmptyMessage));
      return;
    }
    if !IsTruthy(options.saveUrlInVariableId) {
      logs.Add(Message(SaveVariableEmptyMessage));
      return;
    }

    var model := if options.model.Some? then options.model.value else defaultVoiceModel;

    var speech := api.Create(SpeechRequest(options.input.value, options.voice.value, model));
    if speech.Failure? {
      logs.Add(Report(ParseUnknownError(speech.error, GenerateContext)));
      return;
    }
    var url := bucket.UploadFile(speech.value, AudioKey(id1, id2), AudioMimeType);
    if url.Failure? {
      logs.Add(Report(ParseUnknownError(url.error, GenerateContext)));
      return;
    }
    variables.Set([VariableUpdate(options.saveUrlInVariableId.value, url.value)]);
  }
}
