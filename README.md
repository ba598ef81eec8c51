# WhisperTranscriber utility layer, modelled in Dafny

This project models the utility layer of a small web app that transcribes uploaded audio files with a
remote speech-to-text service (Whisper). There are three parts:

- **Upload validator** (`is_valid_audio_file`, module `Validation`). An upload passes when its size is at
  most 25 × 1024 × 1024 = 26,214,400 bytes and its declared MIME type is one of `audio/mpeg`,
  `audio/wav`, `audio/x-m4a` or `audio/mp3`.
- **Language catalog** (`get_supported_languages`, module `Languages`). A constant, insertion-ordered
  dictionary of fourteen language codes. `auto → "Auto-detect"` comes first. A Python dict display is
  modelled as its sequence of pairs (`SupportedLanguages`) and the map it builds (`ToDict`, where a later
  duplicate key wins).
- **Transcription request and clean-up** (`process_audio`, modules `Text` and `Transcription`).
  - The temporary file's suffix is `'.' + name.split('.')[-1]`. `Text.Split` models Python's `str.split`.
  - The request pins no language for the hint `auto` and the hint itself otherwise.
  - On success, the text and language come back unchanged from the response.
  - Every `Exception` is caught. The except clause unlinks the temporary file only when `tmp_file_path` was
    bound, then raises `"Transcription failed: " + str(e)`.

`process_audio` is modelled twice:
- `ProcessAudioSpec` is a pure function over the set of live paths. It is built from `TryBlock` (the try
  block) and `ExceptClause` (the except clause).
- `ProcessAudio` is a method that works step by step on a `FileSystem` object whose `live` field is the set
  of existing paths. It is proved to leave exactly the result, request and live set that `ProcessAudioSpec`
  gives.

The environment is supplied as inputs:
- `TempStage` says whether creating or writing the temporary file raises. When the file is created, it also
  gives the generated name stem.
- `ServiceOutcome` says what happens once the file is written:
  - `ClientFailed`: closing the written file, building the client or opening the file for reading raises
    (utils.py:52-58). The path is bound, but no request is made.
  - `CallFailed`: the remote call raises (utils.py:60-65). The request has been made.
  - `Transcribed`: the call returns a transcript.
  - `UnreadableResponse`: the call returns a response whose fields cannot be read.

The clean-up the code is evidently meant to give is "the temporary file is released on every exit path".
The code as written does not give it in two cases (see Findings). The model follows the code.
`ProcessAudioScoped` is the corrected version.

## Model

| member | source | states |
|---|---|---|
| `Validation.IsValidAudioFile` | utils.py:6-21 | accepts exactly when size ≤ 26,214,400 and the type is one of the four allowed MIME types |
| `Validation.CheckOrderIrrelevant` | utils.py:13-19 | checking the type before the size gives the same verdict on every upload |
| `Validation.OversizeRejected` | utils.py:11-14 | any size above 26,214,400 is rejected whatever the type |
| `Validation.DisallowedTypeRejected` | utils.py:17-19 | any type off the allow-list is rejected whatever the size |
| `Validation.LimitIsInclusive` | utils.py:11-13 | with an allowed type, 26,214,400 bytes passes and 26,214,401 fails |
| `Languages.SupportedLanguages` | utils.py:23-42 | fourteen entries, distinct codes, `("auto", "Auto-detect")` first |
| `Languages.ToDict` | utils.py:27-42 | the dict display's keys are exactly the keys listed, and the last pair's key maps to that pair's value (a later key wins) |
| `Languages.ToDictOfDistinctKeys` | utils.py:27-42 | a dict built from pairs with distinct keys has one entry per pair, maps each key to its own value and has no other key |
| `Languages.CatalogCodes` | utils.py:28-41 | the catalog lists exactly the codes auto, en, es, fr, de, it, pt, nl, ja, ko, zh, ar, ru, hi |
| `Languages.CatalogKeysAmongCodes` | utils.py:27-42 | every key of the returned dict is one of those fourteen codes |
| `Languages.CatalogKeys` | utils.py:27-42 | the returned dict's key set is exactly those fourteen codes |
| `Languages.CatalogDictionary` | utils.py:27-42 | the returned dict has 14 entries, each code mapped to the name written beside it |
| `Languages.AutoDetectListed` | utils.py:28 | `auto` is a key of the returned dict and names "Auto-detect" |
| `Text.Split` | utils.py:50 | `str.split` gives at least one piece, no piece holds the separator, and a single piece exactly when the separator is absent |
| `Text.JoinSplit` | utils.py:50 | joining the pieces with the separator gives back the original string |
| `Text.SplitWithoutSep` | utils.py:50 | a string without the separator splits into itself alone |
| `Text.LastPieceIsLongestTailWithoutSep` | utils.py:50 | `split(sep)[-1]` is the longest tail of the string without the separator |
| `Text.LastPart` | utils.py:50 | `s.split(sep)[-1]` is a tail of `s` without the separator, and is either all of `s` or preceded by the separator |
| `Text.LastPartWithoutSep` | utils.py:50 | without a separator, the last piece is the whole string |
| `Text.LastPartAfterTrailingSep` | utils.py:50 | after a trailing separator, the last piece is empty |
| `Transcription.TempSuffix` | utils.py:50 | the suffix is a dot and then the longest dot-free tail of the file name |
| `Transcription.SuffixOfDotlessName` | utils.py:50 | a name without a dot gives `'.'` + the whole name |
| `Transcription.SuffixAfterTrailingDot` | utils.py:50 | a name ending in a dot gives `"."` |
| `Transcription.SuffixIsLastExtension` | utils.py:50 | `base + "." + ext` with a dot-free `ext` gives `"." + ext`, whatever `base` holds |
| `Transcription.TempPath` | utils.py:50-52 | the temporary path is the generated stem followed by the dot-led suffix |
| `Transcription.TempPathKeepsSuffix` | utils.py:50-52 | the temporary path has the same suffix as the upload's name, whatever the stem holds |
| `Transcription.LanguageArg` | utils.py:64 | the language argument is absent exactly when the hint is `auto`, and is otherwise the hint unchanged |
| `Transcription.UnlinkIn` | utils.py:68 | `os.unlink` removes a live path and raises `FileNotFoundError` for a missing one, leaving the others |
| `Transcription.Exception.Message` | utils.py:75-79 | `str(e)`: a raised exception's own message; the wrapper is `"Transcription failed: "` and then the cause; the unlink error's message never starts with the wrapper's text |
| `Transcription.TryBlock` | utils.py:48-73 | the path is bound exactly when the write succeeded; a request naming the temporary file is made exactly when the client was built; a transcript comes back exactly when the service gave one, with its text and language |
| `Transcription.ExceptClause` | utils.py:75-79 | a bound path is unlinked; the wrapper around `str(e)` is raised unless the bound path is already gone, in which case `FileNotFoundError` escapes; with no bound path nothing changes |
| `Transcription.ProcessAudioSpec` | utils.py:44-79 | a transcript exactly when the file was written and transcribed, carrying the service's text and language; every failure is the wrapper or an escaped `FileNotFoundError`; a request exactly when the client was built; no path but the temporary one changes |
| `Transcription.FileSystem.Create` | utils.py:50 | creating the named temporary file adds its path to the live set |
| `Transcription.FileSystem.Unlink` | utils.py:78 | unlinking changes the live set and reports errors as `UnlinkIn` does |
| `Transcription.ProcessAudio` | utils.py:44-79 | the step-by-step procedure returns the result and request, and leaves the live set, that `ProcessAudioSpec` gives |
| `Transcription.NoPartialResult` | utils.py:48-79 | a result is returned exactly when the file was written and the service transcribed it; a request is made exactly when the file was written and the client was built; every failure is the wrapper around the message of the step that raised, except an unreadable response, which fails with `FileNotFoundError` for the temporary path |
| `Transcription.SuccessCopiesResponse` | utils.py:60-73 | on success, text and language are the response's own; the request names the temporary file, `whisper-1`, `verbose_json` and the language argument; the file is gone again |
| `Transcription.DefaultHintPinsNoLanguage` | utils.py:44-65 | with the default hint, once the client is built, the request pins no language |
| `Transcription.ServiceFailureReleasesAndWraps` | utils.py:52-79 | a failure building the client or in the remote call removes the file and raises the wrapper around the original message; a request was made only when the call itself failed |
| `Transcription.CreateFailureWraps` | utils.py:48-79 | if creating the temporary file fails, nothing is left behind, no request is sent and the message is wrapped |
| `Transcription.ReleasedUnlessWriteFails` | utils.py:48-79 | as written, the live set is restored exactly when the write did not fail |
| `Transcription.WriteFailureLeaksTempFile` | utils.py:50-52 | a failed write leaves the temporary file behind, with the message wrapped |
| `Transcription.LateFailureMasksWrapper` | utils.py:68-79 | a failure after the unlink at line 68 makes the except clause raise `FileNotFoundError` instead of the wrapper, and its message does not start with the wrapper's text |
| `Transcription.ProcessAudioScoped` | utils.py:48-79 | the corrected version: a transcript exactly when the file was written and transcribed, every failure is the wrapper, and the temporary path is gone on every exit |
| `Transcription.ScopedReleases` | utils.py:48-79 | the corrected version leaves the live set as it found it on every exit path |
| `Transcription.ScopedWraps` | utils.py:75-79 | every failure of the corrected version is the wrapper around the message of the step that raised (the file's creation or write, or the service, including an unreadable response), and its text is `"Transcription failed: "` + that message |
| `Transcription.ScopedAgreesElsewhere` | utils.py:48-79 | when the write succeeds and the response is readable, the corrected version and the code as written agree |

The catalog is a constant. A Dafny function always gives the same value for the same arguments, so the
dict is the same on every call.

## Left out

- The OpenAI client, the API-key lookup and the Whisper call (utils.py:55-65) are a foreign network call.
  Their outcome is the `ServiceOutcome` input. The model does not say what the service puts in `text` or
  `language`.
- File contents. The bytes written to the temporary file and read back by `open` are not modelled. The file
  system is only its set of live paths.
- The random part of the temporary name is the `stem` input. Lemmas that need the name to be new take
  `FreshTempPath` as a hypothesis: the OS creates the file exclusively.
- Anything else removing the temporary file between its creation and line 68 is not modelled. So the unlink
  at line 68 always succeeds on the path it just created.
- Python's exception chaining (`__context__`) and the exception classes are not modelled. Only the message
  each exception carries is kept.
- A `BaseException` that is not an `Exception` (`KeyboardInterrupt`, `SystemExit`) passes through
  `except Exception` without clean-up or wrapping. It is not modelled: every failure input stands for an
  `Exception`.
- `Transcription.Exception.Message`: the `FileNotFoundError` message quotes the path with single quotes.
  Python's `repr` switches to double quotes or escapes for some paths, which the model does not reproduce.
- `main.py` (page wiring, session state, the download widget) and `styles.py` (CSS) are presentation code
  and are not part of this model.
- There is no export formatter (txt/json/csv, timestamps) in the code. The only download hands the raw
  transcript to the page's download widget, so none is modelled.

## Findings

| source | as written | input that shows it | evidently intended | confidence | as-written member | corrected member |
|---|---|---|---|---|---|---|
| utils.py:50-52 | `tmp_file_path` is bound only after the write succeeds, and the except clause unlinks only a bound path | writing the upload raises (for example, the disk is full) after `NamedTemporaryFile(delete=False)` created the file | the temporary file is removed on every failure | medium, not executed | `Transcription.WriteFailureLeaksTempFile` | `Transcription.ScopedReleases` (about `Transcription.ProcessAudioScoped`) |
| utils.py:68-79 | after the success-path unlink, any exception sends the except clause to unlink the same path again | the response's `text` or `language` cannot be read after line 68 | the caller receives "Transcription failed: " + the message, and the file is unlinked once | low, not executed | `Transcription.LateFailureMasksWrapper` | `Transcription.ScopedWraps` (about `Transcription.ProcessAudioScoped`) |
