# Create speech: a Dafny model

This project models the "Create speech" action of the OpenAI block of the
Typebot forge (`packages/forge/blocks/openai/src/actions/createSpeech.ts`).
The action has three pieces of logic:

- **`getSetVariableIds`** declares which variable the action writes.
- **The `fetchSpeechModels` fetcher** fills the model dropdown. With no API
  key it returns an empty list. Otherwise it asks the provider for its model
  catalogue, keeps the ids that contain `"tts"`, orders them newest first and
  returns the ids. If the provider call throws, it returns an error.
- **`run.server`** is the executor. It checks `input`, then `voice`, then
  `saveUrlInVariableId`, and logs a message at the first one that is empty.
  It then asks the provider for speech, with the model defaulted when absent.
  It uploads the audio under `tmp/openai/audio/<id>.mp3` as `audio/mpeg` and
  writes the URL into the chosen variable. If either call fails, it logs one
  diagnostic tagged "While generating speech".

Modules, one per file:

- `Wrappers` (`wrappers.dfy`): `Option` for `undefined`, and `Result` for a
  call that returns a value or throws.
- `JsStrings` (`js_strings.dfy`): `String.prototype.includes`, prefix and
  suffix, and JavaScript truthiness of an optional string.
- `ForgeHost` (`forge_host.dfy`): what the host provides. This covers the log
  collection (`Logs`), the variable store (`Variables`) and the error
  normaliser (`ParseUnknownError`).
- `SpeechModels` (`speech_models.dfy`): the fetcher. The filter, the stable
  sort and the projection are pure functions over `seq<Model>`.
- `CreateSpeech` (`create_speech.dfy`): `getSetVariableIds` and the executor.
  `RunServer` is an imperative method over the host's `Logs` and `Variables`
  objects and two collaborators, `SpeechApi` and `Bucket`. Each collaborator
  records the calls it receives and gives back a preset answer: a value or a
  thrown error. `RunServer` is proved against the pure function `Run`, whose
  contract states the executor's behaviour.

JavaScript's `Array.prototype.sort` is stable. The sort is therefore modelled
as a stable insertion sort on `created`, newest first. It is specified by
three properties:

- `created` never increases along the result (`NonIncreasing`).
- The result is a permutation of its input.
- For every timestamp `t`, the models created at `t` keep their catalogue
  order (`WithCreated`).

`StableOrderIsUnique` proves that these properties determine the order
completely.

The fetcher's error context is the code's own wording, "While fetching OpenAI
speech models" (line 75), and the executor's is "While generating speech"
(line 123).

## Model

| member | source | states |
|---|---|---|
| `JsStrings.IncludesIffOccurs` | packages/forge/blocks/openai/src/actions/createSpeech.ts:67 | the left-to-right scan behind `id.includes(sub)` is true exactly when `sub` occurs at some index of `id` |
| `JsStrings.Includes` | packages/forge/blocks/openai/src/actions/createSpeech.ts:67 | `String.prototype.includes` as a left-to-right scan; a match needs the id to be at least as long as the marker, and a prefix always matches; its meaning is `IncludesIffOccurs` |
| `JsStrings.IsTruthy` | packages/forge/blocks/openai/src/actions/createSpeech.ts:84-86 | JavaScript truthiness of an optional string (also lines 35 and 41): present and non-empty; its use is stated by `GetSetVariableIds`, `FirstMissingOption` and `FetchSpeechModels` |
| `ForgeHost.ParseUnknownError` | packages/forge/blocks/openai/src/actions/createSpeech.ts:121-124 | the normalised error of lines 73-76 and 121-124, kept as its context and thrown value; its tagging is stated by `FetchSpeechModels` and `Run` |
| `SpeechModels.FilterSpeechModels` | packages/forge/blocks/openai/src/actions/createSpeech.ts:67 | `.filter(model => model.id.includes("tts"))`; never longer than the catalogue; see `FilterCountsEach` and `FilterLength` |
| `SpeechModels.InsertByCreated` | packages/forge/blocks/openai/src/actions/createSpeech.ts:68 | one insertion step of the stable descending sort adds exactly one element; see `InsertAddsOne`, `InsertKeepsOrder`, `InsertIsStable` |
| `SpeechModels.SortByCreatedDesc` | packages/forge/blocks/openai/src/actions/createSpeech.ts:68 | `.sort((a, b) => b.created - a.created)`, a stable descending sort that keeps the length; see `SortIsPermutation`, `SortIsNonIncreasing`, `SortIsStable` |
| `SpeechModels.FilterCountsEach` | packages/forge/blocks/openai/src/actions/createSpeech.ts:67 | the filter keeps each model whose id contains "tts" exactly as many times as it occurs in the catalogue, and drops every other model |
| `SpeechModels.FilterLength` | packages/forge/blocks/openai/src/actions/createSpeech.ts:66-67 | the filtered list is as long as the number of catalogue entries whose id contains "tts" |
| `SpeechModels.InsertAddsOne` | packages/forge/blocks/openai/src/actions/createSpeech.ts:68 | one insertion step of the sort adds exactly the inserted model to the multiset |
| `SpeechModels.SortIsPermutation` | packages/forge/blocks/openai/src/actions/createSpeech.ts:68 | the sort returns a permutation of its input |
| `SpeechModels.InsertKeepsOrder` | packages/forge/blocks/openai/src/actions/createSpeech.ts:68 | inserting into a newest-first list gives a newest-first list |
| `SpeechModels.SortIsNonIncreasing` | packages/forge/blocks/openai/src/actions/createSpeech.ts:68 | the comparator `b.created - a.created` yields `created` non-increasing along the result |
| `SpeechModels.InsertIsStable` | packages/forge/blocks/openai/src/actions/createSpeech.ts:68 | an insertion step puts the inserted model before the later models that have the same timestamp |
| `SpeechModels.SortIsStable` | packages/forge/blocks/openai/src/actions/createSpeech.ts:68 | the sort is stable: for each timestamp, the models with that timestamp appear in their input order |
| `SpeechModels.StableOrderIsUnique` | packages/forge/blocks/openai/src/actions/createSpeech.ts:68 | two newest-first lists that agree, per timestamp, on their order are equal, so a stable descending sort has one result |
| `SpeechModels.FilterCommutesWithCreated` | packages/forge/blocks/openai/src/actions/createSpeech.ts:67-68 | selecting the "tts" models and selecting one timestamp's models can be done in either order |
| `SpeechModels.RankSpeechModels` | packages/forge/blocks/openai/src/actions/createSpeech.ts:66-68 | the ranked list contains every "tts" catalogue entry once per occurrence and nothing else; it is newest first; models with equal timestamps keep catalogue order |
| `SpeechModels.RankIsTheOnlyOrder` | packages/forge/blocks/openai/src/actions/createSpeech.ts:66-68 | any newest-first list that keeps each timestamp's "tts" models in catalogue order is exactly the ranked list |
| `SpeechModels.FetchSpeechModels` | packages/forge/blocks/openai/src/actions/createSpeech.ts:40-79 | a missing or empty API key gives `{data: []}`, whatever the provider would answer; a failed catalogue call gives an error tagged "While fetching OpenAI speech models"; otherwise the ids of the ranked list, one per matching model, all containing "tts" |
| `SpeechModels.FetchKeepsSpeechModelsNewestFirst` | packages/forge/blocks/openai/src/actions/createSpeech.ts:63-69 | a catalogue with timestamps 100, 50 and 200, two of them "tts" models, yields those two ids, newest first |
| `CreateSpeech.GetSetVariableIds` | packages/forge/blocks/openai/src/actions/createSpeech.ts:34-35 | `[saveUrlInVariableId]` when that option is set and non-empty, `[]` otherwise |
| `CreateSpeech.AudioKey` | packages/forge/blocks/openai/src/actions/createSpeech.ts:114 | the upload key starts with `tmp/openai/audio/`, ends with `.mp3`, and the generated ids can be read back from between the two |
| `CreateSpeech.AudioKeyIsInjective` | packages/forge/blocks/openai/src/actions/createSpeech.ts:114 | equal keys come from equal `createId() + createId()` strings |
| `CreateSpeech.AudioKeyDeterminesIds` | packages/forge/blocks/openai/src/actions/createSpeech.ts:114 | when the first generated ids have the same length, equal keys come from equal pairs of ids |
| `CreateSpeech.FirstMissingOption` | packages/forge/blocks/openai/src/actions/createSpeech.ts:84-87 | the first empty option in the order input, voice, save variable selects its message; no message exactly when all three are non-empty |
| `CreateSpeech.Run` | packages/forge/blocks/openai/src/actions/createSpeech.ts:83-127 | a missing option adds exactly one message and nothing else. Otherwise there is one speech request, with `options.model` or the default when absent. If synthesis succeeds there is one upload of its audio as `audio/mpeg` under a `tmp/openai/audio/…mp3` key. Success writes `{id: saveUrlInVariableId, value: url}` once with no log. A failure of either call adds one "While generating speech" diagnostic and writes nothing. Every run ends in exactly one log or one write, and only the declared variable is written |
| `CreateSpeech.RunServer` | packages/forge/blocks/openai/src/actions/createSpeech.ts:83-127 | the executor's early returns, speech request, upload and variable write change the log, the variable store and the two collaborators exactly as `Run` says |
| `CreateSpeech.SpeechApi.Create` | packages/forge/blocks/openai/src/actions/createSpeech.ts:107-111 | a speech request is recorded and answered with the provider's audio or error |
| `CreateSpeech.Bucket.UploadFile` | packages/forge/blocks/openai/src/actions/createSpeech.ts:112-116 | an upload is recorded with its file, key and MIME type and answered with the URL or error |
| `ForgeHost.Logs.Add` | packages/forge/blocks/openai/src/actions/createSpeech.ts:84 | `logs.add` appends one entry |
| `ForgeHost.Variables.Set` | packages/forge/blocks/openai/src/actions/createSpeech.ts:118 | `variables.set` records one write of the given updates |

## Left out

- The provider client is not modelled. This covers `new OpenAI(config)`, the API key, the base URL, the `api-key` header and the `api-version` query (lines 46-60 and 89-102). The `isNotEmpty` check on `apiVersion` (line 95) is left out with them. The model assumes the client construction and the `credentials` destructuring (line 83) do not throw. A throw there is outside the `try` and escapes the action with no log and no write, so `Run`'s one-log-or-one-write and `FetchSpeechModels`' error answer hold only when construction succeeds. Unlike the fetcher (line 41), `run.server` does not check `apiKey` before building the client.
- The network calls are not modelled. `models.list()`, `audio.speech.create()` and `uploadFileToBucket` (lines 63, 107-116) are replaced by their answers: a value or a thrown error (`Raised`). The provider's and the store's own behaviour is not modelled.
- `createId()` (line 114) is random. Its two values are parameters of `RunServer`. Uniqueness of keys across invocations cannot be stated without the generator. `AudioKeyIsInjective` shows only that equal keys come from equal `createId() + createId()` strings.
- `parseUnknownError` is not part of this model. Its result is kept as the pair it is built from: the context string and the thrown value.
- The byte conversion `Buffer.from(await rawAudio.arrayBuffer())` (line 113) is not modelled. A failure there is folded into the speech answer, because the same `catch` handles it.
- `variables.set` and `logs.add` are assumed not to throw. The value `run.server` returns through `return logs.add(...)` is ignored.
- The option schema and layout (lines 11-33) are form metadata for the host's renderer. This includes the dropdown's `defaultValue: "tts-1"` (line 18).
- `defaultOpenAIOptions.voiceModel` and `openAIVoices` (line 9) are not part of this model. The default model is a parameter, and `voice` is any string; the host's enum validation is not modelled.
- `Model.created` is an unbounded integer. The JavaScript comparator subtracts floating-point numbers, which is exact for integer timestamps below 2^53. Larger or fractional timestamps are not modelled.
- The `?? []` on line 69 is never taken (`map` always returns an array), so it has no counterpart in the model.
- The `async`/`await` sequencing is not modelled. The two calls are awaited one after the other, which the model's ordering already reflects.
