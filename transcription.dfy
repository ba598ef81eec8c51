/**
 * The transcription request and its clean-up (`process_audio`): the upload
 * is written to a temporary file whose suffix is the upload's extension, the
 * speech-to-text service is asked for a verbose transcript (pinned to a
 * language unless the hint is `auto`), the temporary file is unlinked and the
 * transcript's text and language are returned. Any `Exception` is caught,
 * the temporary file is unlinked if its path was bound, and the exception is
 * re-raised as "Transcription failed: " followed by its message.
 *
 * The file system is a set of live paths; where a step raises, and what the
 * service answers, are inputs.
 */
module Transcription {
  import opened Wrappers
  import opened Text
  import opened Validation

  type Path = string

  /** The text the except clause puts in front of the caught exception's message. */
  const WrapperPrefix: string := "Transcription failed: "

  /** `m` starts with the wrapper's text. */
  predicate StartsWithWrapper(m: string)
  {
    |m| >= |WrapperPrefix| && m[..|WrapperPrefix|] == WrapperPrefix
  }

  /** The exceptions that can leave `process_audio`, or be caught inside it. */
  datatype Exception =
    | Raised(message: string)             // an exception from outside the model, with its message
    | FileNotFound(path: Path)            // `os.unlink` of a path that does not exist
    | TranscriptionFailed(cause: string)  // the wrapper raised by the except clause
  {
    /**
     * `str(e)`. The wrapper's message is its prefix and then the cause; the
     * unlink error's message is the OS error text, never mistaken for a
     * wrapper. Python quotes the path with `repr`, which picks double quotes
     * or escapes for some paths; the model always uses single quotes.
     */
    function Message(): (m: string)
      ensures Raised? ==> m == message
      ensures TranscriptionFailed? ==> StartsWithWrapper(m) && m[|WrapperPrefix|..] == cause
      ensures FileNotFound? ==> !StartsWithWrapper(m)
    {
      match this
      case Raised(m) => m
      case FileNotFound(p) =>
        var m := "[Errno 2] No such file or directory: '" + p + "'";
        assert m[0] == '[';
        m
      case TranscriptionFailed(c) => WrapperPrefix + c
    }
  }

  /** How far writing the temporary file gets. */
  datatype TempStage =
    | CreateFailed(message: string)               // creating the named temporary file raises: no file
    | WriteFailed(stem: string, message: string)  // the file exists, but writing the upload raises
    | Written(stem: string)                       // the file is written and its path bound

  /** What happens from creating the service client to reading the response. */
  datatype ServiceOutcome =
    | ClientFailed(message: string)         // closing the written file, building the client or opening the file raises
    | CallFailed(message: string)           // the remote call raises
    | Transcribed(text: string, language: string)
    | UnreadableResponse(message: string)   // the call returns, but reading `text` or `language` raises

  /** The arguments of the transcription request. */
  datatype Request = Request(file: Path, model: string, responseFormat: string, language: Option<string>)

  /** The dictionary returned on success. */
  datatype Transcript = Transcript(text: string, detectedLanguage: string)

  /** What a call leaves behind: its result, the request it sent (if any) and the live paths. */
  datatype Run = Run(result: Result<Transcript, Exception>, request: Option<Request>, live: set<Path>)

  /**
   * The temporary file's suffix, `'.' + name.split('.')[-1]`: a dot and then
   * the longest tail of the name without a dot.
   */
  function TempSuffix(name: string): (suffix: string)
    ensures |suffix| >= 1 && suffix[0] == '.' && '.' !in suffix[1..]
    ensures |suffix| - 1 <= |name| && name[|name| - (|suffix| - 1)..] == suffix[1..]
    ensures |suffix| - 1 < |name| ==> name[|name| - |suffix|] == '.'
  {
    "." + LastPart(name, '.')
  }

  /** A name without a dot gives a dot and the whole name. */
  lemma SuffixOfDotlessName(name: string)
    requires '.' !in name
    ensures TempSuffix(name) == "." + name
  {
  }

  /** A name ending in a dot gives a lone dot. */
  lemma SuffixAfterTrailingDot(name: string)
    requires |name| > 0 && name[|name| - 1] == '.'
    ensures TempSuffix(name) == "."
  {
  }

  /** Whatever comes before the last dot, only the text after it is kept: "a.tar.mp3" gives ".mp3". */
  lemma SuffixIsLastExtension(base: string, ext: string)
    requires '.' !in ext
    ensures TempSuffix(base + "." + ext) == "." + ext
  {
    var name := base + "." + ext;
    var tail := TempSuffix(name)[1..];
    assert name[|base|] == '.';
    assert tail == name[|base| + 1..];
    assert name[|base| + 1..] == ext;
  }

  /** The path the temporary file gets: a generated stem and then the suffix. */
  function TempPath(stem: string, name: string): (path: Path)
    ensures |path| > |stem| && path[..|stem|] == stem && path[|stem|] == '.'
  {
    stem + TempSuffix(name)
  }

  /** The temporary path keeps the upload's extension, whatever the stem holds. */
  lemma TempPathKeepsSuffix(stem: string, name: string)
    ensures TempSuffix(TempPath(stem, name)) == TempSuffix(name)
  {
    var suffix := TempSuffix(name);
    var ext := suffix[1..];
    assert suffix == "." + ext;
    assert TempPath(stem, name) == stem + "." + ext;
    SuffixIsLastExtension(stem, ext);
  }

  /** The `language` argument: absent for the `auto` hint, otherwise the hint itself. */
  function LanguageArg(hint: string): (arg: Option<string>)
    ensures arg == None <==> hint == "auto"
    ensures arg != None ==> arg.value == hint
  {
    if hint == "auto" then None else Some(hint)
  }

  /** `os.unlink(path)`: removes an existing path, raises for a missing one. */
  function UnlinkIn(live: set<Path>, path: Path): (r: (Option<Exception>, set<Path>))
    ensures r.0 == None <==> path in live
    ensures r.0 != None ==> r.0.value == FileNotFound(path)
    ensures path !in r.1 && r.1 <= live && live - {path} <= r.1
  {
    if path in live then (None, live - {path}) else (Some(FileNotFound(path)), live)
  }

  /** Where the try block leaves things: its outcome, whether the path was bound, the request and the live paths. */
  datatype TryExit = TryExit(outcome: Result<Transcript, Exception>, bound: Option<Path>, request: Option<Request>, live: set<Path>)

  /**
   * The try block, in order: create and write the file, bind its path, build
   * the client and open the file, call the service, unlink, read the response.
   * The path is bound exactly when the write succeeded, and the request is
   * made exactly when the client was built and the file opened.
   */
  function TryBlock(live: set<Path>, upload: Upload, stage: TempStage, service: ServiceOutcome, language: string): (exit: TryExit)
    ensures exit.bound.Some? <==> stage.Written?
    ensures exit.bound.Some? ==> exit.bound.value == TempPath(stage.stem, upload.name)
    ensures exit.request.Some? <==> stage.Written? && !service.ClientFailed?
    ensures exit.request.Some? ==> exit.request.value == Request(TempPath(stage.stem, upload.name), "whisper-1", "verbose_json", LanguageArg(language))
    ensures exit.outcome.Success? <==> stage.Written? && service.Transcribed?
    ensures exit.outcome.Success? ==> exit.outcome.value == Transcript(service.text, service.language)
  {
    match stage
    case CreateFailed(msg) => TryExit(Failure(Raised(msg)), None, None, live)
    case WriteFailed(stem, msg) => TryExit(Failure(Raised(msg)), None, None, live + {TempPath(stem, upload.name)})
    case Written(stem) =>
      var path := TempPath(stem, upload.name);
      var request := Some(Request(path, "whisper-1", "verbose_json", LanguageArg(language)));
      match service
      case ClientFailed(msg) => TryExit(Failure(Raised(msg)), Some(path), None, live + {path})
      case CallFailed(msg) => TryExit(Failure(Raised(msg)), Some(path), request, live + {path})
      case Transcribed(text, lang) =>
        var (err, live') := UnlinkIn(live + {path}, path);
        (match err
         case Some(e) => TryExit(Failure(e), Some(path), request, live')
         case None => TryExit(Success(Transcript(text, lang)), Some(path), request, live'))
      case UnreadableResponse(msg) =>
        var (err, live') := UnlinkIn(live + {path}, path);
        match err
        case Some(e) => TryExit(Failure(e), Some(path), request, live')
        case None => TryExit(Failure(Raised(msg)), Some(path), request, live')
  }

  /**
   * The except clause: unlink the path if it was bound (an exception from
   * that unlink escapes as it is), then raise the wrapper.
   */
  function ExceptClause(e: Exception, bound: Option<Path>, live: set<Path>): (r: (Exception, set<Path>))
    ensures bound.None? ==> r == (TranscriptionFailed(e.Message()), live)
    ensures bound.Some? ==> r.1 == live - {bound.value}
    ensures bound.Some? && bound.value in live ==> r.0 == TranscriptionFailed(e.Message())
    ensures bound.Some? && bound.value !in live ==> r.0 == FileNotFound(bound.value)
  {
    match bound
    case None => (TranscriptionFailed(e.Message()), live)
    case Some(path) =>
      var (err, live') := UnlinkIn(live, path);
      match err
      case Some(unlinkError) => (unlinkError, live')
      case None => (TranscriptionFailed(e.Message()), live')
  }

  /**
   * `process_audio(uploaded_file, language='auto')` as written, over the live
   * paths: a transcript exactly when the file was written and the service
   * transcribed it, otherwise the wrapper or an escaped unlink error; no path
   * but the temporary one changes.
   */
  function ProcessAudioSpec(live: set<Path>, upload: Upload, stage: TempStage, service: ServiceOutcome, language: string := "auto"): (r: Run)
    ensures r.result.Success? <==> stage.Written? && service.Transcribed?
    ensures r.result.Success? ==> r.result.value == Transcript(service.text, service.language)
    ensures r.result.Failure? ==> r.result.error.TranscriptionFailed? || r.result.error.FileNotFound?
    ensures r.request.Some? <==> stage.Written? && !service.ClientFailed?
    ensures stage.CreateFailed? ==> r.live == live
    ensures !stage.CreateFailed? ==> r.live - {TempPath(stage.stem, upload.name)} == live - {TempPath(stage.stem, upload.name)}
  {
    var exit := TryBlock(live, upload, stage, service, language);
    match exit.outcome
    case Success(t) => Run(Success(t), exit.request, exit.live)
    case Failure(e) =>
      var (raised, live') := ExceptClause(e, exit.bound, exit.live);
      Run(Failure(raised), exit.request, live')
  }

  /** The temporary file's name is new: the file system had no such path before the call. */
  predicate FreshTempPath(live: set<Path>, upload: Upload, stage: TempStage)
  {
    stage.CreateFailed? || TempPath(stage.stem, upload.name) !in live
  }

  /**
   * A result comes back exactly when the file was written and the service
   * transcribed it; a request is made exactly when the file was written and
   * the client was built. Every other run fails with the wrapper around the
   * message of the step that raised, except an unreadable response, whose
   * failure is the escaped `FileNotFoundError` for the temporary path.
   */
  lemma NoPartialResult(live: set<Path>, upload: Upload, stage: TempStage, service: ServiceOutcome, language: string)
    ensures var r := ProcessAudioSpec(live, upload, stage, service, language);
      && (r.result.Success? <==> stage.Written? && service.Transcribed?)
      && (r.request.Some? <==> stage.Written? && !service.ClientFailed?)
      && (r.result.Failure? ==>
            r.result.error
            == if stage.Written? && service.UnreadableResponse? then FileNotFound(TempPath(stage.stem, upload.name))
               else TranscriptionFailed(if stage.Written? then service.message else stage.message))
  {
  }

  /**
   * On success the text and language are the response's own, the request
   * names the temporary file, the Whisper model, the verbose format and the
   * language argument, and the temporary file is gone again.
   */
  lemma SuccessCopiesResponse(live: set<Path>, upload: Upload, stem: string, text: string, lang: string, language: string)
    requires TempPath(stem, upload.name) !in live
    ensures ProcessAudioSpec(live, upload, Written(stem), Transcribed(text, lang), language)
      == Run(Success(Transcript(text, lang)),
             Some(Request(TempPath(stem, upload.name), "whisper-1", "verbose_json", LanguageArg(language))),
             live)
  {
    var path := TempPath(stem, upload.name);
    var exit := TryBlock(live, upload, Written(stem), Transcribed(text, lang), language);
    assert UnlinkIn(live + {path}, path) == (None, live);
    assert exit.outcome == Success(Transcript(text, lang)) && exit.live == live;
  }

  /** The default hint is `auto`: the request then pins no language. */
  lemma DefaultHintPinsNoLanguage(live: set<Path>, upload: Upload, stem: string, service: ServiceOutcome)
    requires !service.ClientFailed?
    ensures ProcessAudioSpec(live, upload, Written(stem), service).request
      == Some(Request(TempPath(stem, upload.name), "whisper-1", "verbose_json", None))
  {
  }

  /**
   * When building the client or the remote call fails after the path was
   * bound, the file is removed and the exception is the wrapper around the
   * original message; a request was made only if the call itself failed.
   */
  lemma ServiceFailureReleasesAndWraps(live: set<Path>, upload: Upload, stem: string, service: ServiceOutcome, language: string)
    requires TempPath(stem, upload.name) !in live
    requires service.ClientFailed? || service.CallFailed?
    ensures ProcessAudioSpec(live, upload, Written(stem), service, language).live == live
    ensures ProcessAudioSpec(live, upload, Written(stem), service, language).result == Failure(TranscriptionFailed(service.message))
    ensures ProcessAudioSpec(live, upload, Written(stem), service, language).request.Some? <==> service.CallFailed?
  {
    var path := TempPath(stem, upload.name);
    var exit := TryBlock(live, upload, Written(stem), service, language);
    assert exit.outcome == Failure(Raised(service.message));
    assert exit.bound == Some(path) && exit.live == live + {path};
    assert ExceptClause(Raised(service.message), Some(path), live + {path}) == (TranscriptionFailed(service.message), live);
  }

  /** When the temporary file cannot be created, nothing is left behind and the message is wrapped. */
  lemma CreateFailureWraps(live: set<Path>, upload: Upload, msg: string, service: ServiceOutcome, language: string)
    ensures ProcessAudioSpec(live, upload, CreateFailed(msg), service, language)
      == Run(Failure(TranscriptionFailed(msg)), None, live)
  {
  }

  /**
   * As written, the file system is back to where it was after every call
   * except one whose write failed: that one leaves its temporary file.
   */
  lemma ReleasedUnlessWriteFails(live: set<Path>, upload: Upload, stage: TempStage, service: ServiceOutcome, language: string)
    requires FreshTempPath(live, upload, stage)
    ensures ProcessAudioSpec(live, upload, stage, service, language).live == live <==> !stage.WriteFailed?
  {
    match stage
    case CreateFailed(msg) =>
      CreateFailureWraps(live, upload, msg, service, language);
    case WriteFailed(stem, msg) =>
      WriteFailureLeaksTempFile(live, upload, stem, msg, service, language);
    case Written(stem) =>
      match service
      case ClientFailed(_) => ServiceFailureReleasesAndWraps(live, upload, stem, service, language);
      case CallFailed(_) => ServiceFailureReleasesAndWraps(live, upload, stem, service, language);
      case Transcribed(text, lang) => SuccessCopiesResponse(live, upload, stem, text, lang, language);
      case UnreadableResponse(msg) => LateFailureMasksWrapper(live, upload, stem, msg, language);
  }

  /**
   * A failed write leaks the temporary file: its path was never bound, so
   * the except clause does not unlink it.
   */
  lemma WriteFailureLeaksTempFile(live: set<Path>, upload: Upload, stem: string, msg: string, service: ServiceOutcome, language: string)
    requires TempPath(stem, upload.name) !in live
    ensures var r := ProcessAudioSpec(live, upload, WriteFailed(stem, msg), service, language);
      && r.live == live + {TempPath(stem, upload.name)}
      && r.result == Failure(TranscriptionFailed(msg))
  {
  }

  /**
   * A failure after the success-path unlink sends the except clause to
   * unlink a path that is already gone: the `FileNotFoundError` escapes
   * and the "Transcription failed: " wrapper is never raised.
   */
  lemma LateFailureMasksWrapper(live: set<Path>, upload: Upload, stem: string, msg: string, language: string)
    requires TempPath(stem, upload.name) !in live
    ensures var r := ProcessAudioSpec(live, upload, Written(stem), UnreadableResponse(msg), language);
      && r.live == live
      && r.result == Failure(FileNotFound(TempPath(stem, upload.name)))
      && !r.result.error.TranscriptionFailed?
      && !StartsWithWrapper(r.result.error.Message())
  {
    var path := TempPath(stem, upload.name);
    var exit := TryBlock(live, upload, Written(stem), UnreadableResponse(msg), language);
    assert UnlinkIn(live + {path}, path) == (None, live);
    assert exit.outcome == Failure(Raised(msg)) && exit.bound == Some(path) && exit.live == live;
    assert ExceptClause(Raised(msg), Some(path), live) == (FileNotFound(path), live);
  }

  /**
   * `process_audio` with the temporary file held as a scoped resource: the
   * path is bound as soon as the file exists and unlinked exactly once on
   * every exit, and every failure is wrapped.
   */
  function ProcessAudioScoped(live: set<Path>, upload: Upload, stage: TempStage, service: ServiceOutcome, language: string := "auto"): (r: Run)
    ensures r.result.Success? <==> stage.Written? && service.Transcribed?
    ensures r.result.Failure? ==> r.result.error.TranscriptionFailed?
    ensures stage.CreateFailed? ==> r.live == live
    ensures !stage.CreateFailed? ==> r.live == live - {TempPath(stage.stem, upload.name)}
  {
    match stage
    case CreateFailed(msg) => Run(Failure(TranscriptionFailed(msg)), None, live)
    case WriteFailed(stem, msg) =>
      var path := TempPath(stem, upload.name);
      Run(Failure(TranscriptionFailed(msg)), None, (live + {path}) - {path})
    case Written(stem) =>
      var path := TempPath(stem, upload.name);
      var request := Some(Request(path, "whisper-1", "verbose_json", LanguageArg(language)));
      var live' := (live + {path}) - {path};
      match service
      case Transcribed(text, lang) => Run(Success(Transcript(text, lang)), request, live')
      case ClientFailed(msg) => Run(Failure(TranscriptionFailed(msg)), None, live')
      case CallFailed(msg) => Run(Failure(TranscriptionFailed(msg)), request, live')
      case UnreadableResponse(msg) => Run(Failure(TranscriptionFailed(msg)), request, live')
  }

  /** The scoped version leaves the file system as it found it, on every exit path. */
  lemma ScopedReleases(live: set<Path>, upload: Upload, stage: TempStage, service: ServiceOutcome, language: string)
    requires FreshTempPath(live, upload, stage)
    ensures ProcessAudioScoped(live, upload, stage, service, language).live == live
  {
  }

  /**
   * Every failure the scoped version raises is the wrapper around the message
   * of the step that raised: the file's creation or write, or the service.
   */
  lemma ScopedWraps(live: set<Path>, upload: Upload, stage: TempStage, service: ServiceOutcome, language: string)
    ensures var r := ProcessAudioScoped(live, upload, stage, service, language);
      r.result.Failure? ==>
        && r.result.error == TranscriptionFailed(if stage.Written? then service.message else stage.message)
        && r.result.error.Message() == WrapperPrefix + (if stage.Written? then service.message else stage.message)
  {
  }

  /** Away from the two defects, the scoped version and the code as written agree. */
  lemma ScopedAgreesElsewhere(live: set<Path>, upload: Upload, stage: TempStage, service: ServiceOutcome, language: string)
    requires FreshTempPath(live, upload, stage)
    requires !stage.WriteFailed? && !service.UnreadableResponse?
    ensures ProcessAudioScoped(live, upload, stage, service, language) == ProcessAudioSpec(live, upload, stage, service, language)
  {
  }

  /** The file system's live paths. */
  class FileSystem {
    var live: set<Path>

    constructor (paths: set<Path>)
      ensures live == paths
    {
      live := paths;
    }

    /** Creates the file at `path`. */
    method Create(path: Path)
      modifies this
      ensures live == old(live) + {path}
    {
      live := live + {path};
    }

    /** `os.unlink(path)`. */
    method Unlink(path: Path) returns (err: Option<Exception>)
      modifies this
      ensures (err, live) == UnlinkIn(old(live), path)
    {
      if path in live {
        live := live - {path};
        err := None;
      } else {
        err := Some(FileNotFound(path));
      }
    }
  }

  /** `process_audio` step by step; `caught` is the exception the except clause receives. */
  method ProcessAudio(fs: FileSystem, upload: Upload, stage: TempStage, service: ServiceOutcome, language: string := "auto")
    returns (result: Result<Transcript, Exception>, request: Option<Request>)
    modifies fs
    ensures Run(result, request, fs.live) == ProcessAudioSpec(old(fs.live), upload, stage, service, language)
  {
    var bound: Option<Path> := None;
    var caught: Exception;
    request := None;
    match stage {
      case CreateFailed(msg) =>
        caught := Raised(msg);
      case WriteFailed(stem, msg) =>
        fs.Create(TempPath(stem, upload.name));
        caught := Raised(msg);
      case Written(stem) =>
        var path := TempPath(stem, upload.name);
        fs.Create(path);
        bound := Some(path);
        if service.ClientFailed? {
          caught := Raised(service.message);
        } else if service.CallFailed? {
          request := Some(Request(path, "whisper-1", "verbose_json", LanguageArg(language)));
          caught := Raised(service.message);
        } else {
          request := Some(Request(path, "whisper-1", "verbose_json", LanguageArg(language)));
          var err := fs.Unlink(path);
          match err {
            case Some(e) =>
              caught := e;
            case None =>
              if service.Transcribed? {
                result := Success(Transcript(service.text, service.language));
                return;
              }
              caught := Raised(service.message);
          }
        }
    }
    if bound.Some? {
      var err := fs.Unlink(bound.value);
      if err.Some? {
        result := Failure(err.value);
        return;
      }
    }
    result := Failure(TranscriptionFailed(caught.Message()));
  }
}
