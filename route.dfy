/** The `POST /upload` route and the global error handler: validation,
    the conversion of `.m4a`/`.webm` recordings, the transcription and
    summary steps, the saved summary, the cleanup in `finally`, and the
    mapping of errors that never reach the route to status codes. */
module Route {
  import opened Outcomes
  import opened JsStrings
  import opened ChunkPlan
  import opened ChunkPipeline
  import opened Uploads
  import opened Summary

  /** The two entry files differ only where the summary is saved and in
      the answer: `app.mjs` saves it under `/tmp`; `app.js` saves it
      under `<appDir>/uploads` and adds a `downloadUrl`. */
  datatype Variant = Esm | CommonJs(appDir: string)

  /** One stored upload, as multer describes it in `req.files`. */
  datatype UploadedFile = UploadedFile(path: string, mimetype: string)

  /** What the handler reads from the request: the first `audio` and
      `context` files (if any) and the two text fields (`None` when
      absent). */
  datatype Request = Request(
    audio: Option<UploadedFile>, context: Option<UploadedFile>,
    instruction: Option<string>, generalInfo: Option<string>)

  /** The JSON bodies the server sends. */
  datatype Body =
    | ErrorBody(error: string, details: Option<string>)
    | SuccessBody(message: string, summary: string, summaryPath: string, downloadUrl: Option<string>)

  datatype Response = Response(status: nat, body: Body)

  const NoAudioFile: string := "No audio file uploaded"
  const InstructionRequired: string := "Instruction is required"
  const ProcessingFailed: string := "An error occurred during processing"
  const ProcessingCompleted: string := "Processing completed successfully"

  /** The two checks at the top of the handler, in their order: a
      missing audio file wins over a missing or empty instruction. */
  function Validate(req: Request): (r: Option<Response>)
    ensures r.None? <==> req.audio.Some? && req.instruction.Some? && req.instruction.value != ""
    ensures r.Some? ==> r.value.status == 400 && r.value.body.ErrorBody? && r.value.body.details.None?
    ensures r.Some? ==> (r.value.body.error == NoAudioFile <==> req.audio.None?)
    ensures r.Some? && req.audio.Some? ==> r.value.body.error == InstructionRequired
  {
    if req.audio.None? then Some(Response(400, ErrorBody(NoAudioFile, None)))
    else if req.instruction.None? || req.instruction.value == "" then
      Some(Response(400, ErrorBody(InstructionRequired, None)))
    else None
  }

  /** The path `convertToMp3` is asked to write: the upload's path with
      `.m4a` (for `audio/x-m4a`) or `.webm` (for `audio/webm`) at its end
      replaced by `.mp3`; no conversion for any other type. */
  function ConversionTarget(audio: UploadedFile): (target: Option<string>)
    ensures target.Some? <==> audio.mimetype == "audio/x-m4a" || audio.mimetype == "audio/webm"
    ensures target.Some? && EndsWith(audio.path, if audio.mimetype == "audio/x-m4a" then ".m4a" else ".webm") ==>
      EndsWith(target.value, ".mp3")
    ensures target.Some? && !EndsWith(audio.path, if audio.mimetype == "audio/x-m4a" then ".m4a" else ".webm") ==>
      target.value == audio.path
  {
    if audio.mimetype == "audio/x-m4a" then Some(ReplaceSuffix(audio.path, ".m4a", ".mp3"))
    else if audio.mimetype == "audio/webm" then Some(ReplaceSuffix(audio.path, ".webm", ".mp3"))
    else None
  }

  /** `path.replace(/\.(m4a|webm)$/, '.mp3')`, the MP3 path the cleanup
      removes. */
  function CleanupMp3Path(path: string): (r: string)
    ensures EndsWith(path, ".m4a") ==> r == ReplaceSuffix(path, ".m4a", ".mp3")
    ensures EndsWith(path, ".webm") ==> r == ReplaceSuffix(path, ".webm", ".mp3")
    ensures !EndsWith(path, ".m4a") && !EndsWith(path, ".webm") ==> r == path
  {
    if EndsWith(path, ".m4a") then
      assert path[|path| - 1] == 'a';
      ReplaceSuffix(path, ".m4a", ".mp3")
    else if EndsWith(path, ".webm") then
      assert path[|path| - 1] == 'm';
      ReplaceSuffix(path, ".webm", ".mp3")
    else path
  }

  /** The files `finally` asks to delete, in order: the audio upload, the
      context upload, and the converted MP3 for the two converted types;
      `cleanupFile` skips an empty path. */
  function CleanupPaths(req: Request): (paths: seq<string>)
    ensures forall i :: 0 <= i < |paths| ==> paths[i] != ""
    ensures req.audio.Some? && req.audio.value.path != "" ==> req.audio.value.path in paths
    ensures req.context.Some? && req.context.value.path != "" ==> req.context.value.path in paths
    ensures req.audio.Some? && ConversionTarget(req.audio.value).Some? && CleanupMp3Path(req.audio.value.path) != "" ==>
      CleanupMp3Path(req.audio.value.path) in paths
    ensures forall p :: p in paths ==>
      (req.audio.Some? &&
       (p == req.audio.value.path ||
        (ConversionTarget(req.audio.value).Some? && p == CleanupMp3Path(req.audio.value.path)))) ||
      (req.context.Some? && p == req.context.value.path)
  {
    var audio := if req.audio.Some? then [req.audio.value.path] else [];
    var context := if req.context.Some? then [req.context.value.path] else [];
    var mp3 := if req.audio.Some? && ConversionTarget(req.audio.value).Some?
               then [CleanupMp3Path(req.audio.value.path)] else [];
    NonEmpty(audio + context + mp3)
  }

  /** The paths that are not empty, in order. */
  function NonEmpty(paths: seq<string>): (r: seq<string>)
    ensures forall i :: 0 <= i < |r| ==> r[i] != ""
    ensures forall p :: p in r <==> p in paths && p != ""
  {
    if paths == [] then []
    else (if paths[0] == "" then [] else [paths[0]]) + NonEmpty(paths[1..])
  }

  /** When the suffix agrees with the MIME type, the cleanup deletes
      exactly the file the conversion wrote. */
  lemma ConversionAndCleanupAgree(audio: UploadedFile)
    requires (audio.mimetype == "audio/x-m4a" && EndsWith(audio.path, ".m4a")) ||
             (audio.mimetype == "audio/webm" && EndsWith(audio.path, ".webm"))
    ensures ConversionTarget(audio) == Some(CleanupMp3Path(audio.path))
    ensures ConversionTarget(audio).value != audio.path
  {
    var target := ConversionTarget(audio).value;
    assert EndsWith(target, ".mp3");
    assert target[|target| - 1] == '3' != audio.path[|audio.path| - 1];
  }

  /** When the suffix does not agree (an `audio/x-m4a` upload named
      `.webm`, say), the conversion is asked to write onto the upload
      itself, while the cleanup deletes a differently named `.mp3` when
      the path ends with the other suffix. */
  lemma MismatchedSuffixConvertsOntoUpload(audio: UploadedFile)
    requires audio.mimetype == "audio/x-m4a" && EndsWith(audio.path, ".webm")
    ensures ConversionTarget(audio) == Some(audio.path)
    ensures CleanupMp3Path(audio.path) != audio.path
  {
    assert !EndsWith(audio.path, ".m4a") by {
      assert audio.path[|audio.path| - 1] == 'm';
    }
    var r := CleanupMp3Path(audio.path);
    assert EndsWith(r, ".mp3");
    assert r[|r| - 1] == '3';
  }

  /** The rewrite is case-sensitive: an `audio/x-m4a` upload named
      `.M4A` is converted onto its own path, and the cleanup leaves the
      name alone too. */
  lemma UpperCaseSuffixNotRewritten(audio: UploadedFile)
    requires audio.mimetype == "audio/x-m4a" && EndsWith(audio.path, ".M4A")
    ensures ConversionTarget(audio) == Some(audio.path)
    ensures CleanupMp3Path(audio.path) == audio.path
  {
    assert audio.path[|audio.path| - 1] == 'A';
  }

  /** A MIME type that is not converted leaves the path as uploaded. */
  lemma UnconvertedTypesKeepPath(audio: UploadedFile)
    requires audio.mimetype != "audio/x-m4a" && audio.mimetype != "audio/webm"
    ensures ConversionTarget(audio).None?
    ensures forall p :: p in CleanupPaths(Request(Some(audio), None, None, None)) ==> p == audio.path
  {
  }

  /** Errors that reach the global handler: multer's own errors, and any
      other (such as the one `fileFilter` passes on). */
  datatype ServerError = MulterError(message: string) | OtherError(message: string)

  const UnexpectedError: string := "An unexpected error occurred"

  /** The global error handler: 400 'File upload error' for a multer
      error, 500 'Server error' for anything else, with the message as
      details (a default text when it is empty). */
  function ErrorHandlerResponse(err: ServerError): (r: Response)
    ensures r.status == 400 <==> err.MulterError?
    ensures r.status == 400 || r.status == 500
    ensures r.body.ErrorBody? && r.body.details.Some?
    ensures r.body.error == (if err.MulterError? then "File upload error" else "Server error")
    ensures err.message != "" ==> r.body.details.value == err.message
    ensures err.OtherError? ==> r.body.details.value != ""
    ensures err.MulterError? && err.message == "" ==> r.body.details.value == ""
    ensures err.OtherError? && err.message == "" ==> r.body.details.value == UnexpectedError
  {
    if err.MulterError? then Response(400, ErrorBody("File upload error", Some(err.message)))
    else Response(500, ErrorBody("Server error", Some(if err.message != "" then err.message else UnexpectedError)))
  }

  /** One file part of the multipart request, in the order it arrives. */
  datatype Part = Part(fieldname: string, mimetype: string)

  /** Multer's message for a file on an undeclared field or one too
      many on a declared field (`LIMIT_UNEXPECTED_FILE`). */
  const UnexpectedField: string := "Unexpected field"

  /** `limits: { files: 2 }`: the number of file parts multer accepts
      in one request. */
  const MaxFiles: nat := 2

  /** Multer's message when a request carries more file parts than
      `limits.files` allows (`LIMIT_FILE_COUNT`). */
  const TooManyFiles: string := "Too many files"

  /** `upload.fields([{ name: 'audio', maxCount: 1 }, { name: 'context',
      maxCount: 1 }])` counts the files left per field and refuses a
      part before `fileFilter` sees it when none are left. With one
      file allowed per declared field, part `k` passes exactly when its
      field is declared and no earlier part used that field. */
  predicate FieldAccepted(parts: seq<Part>, k: nat)
    requires k < |parts|
  {
    (parts[k].fieldname == "audio" || parts[k].fieldname == "context") &&
    forall i :: 0 <= i < k ==> parts[i].fieldname != parts[k].fieldname
  }

  /** Part `k` is within the file count, passes multer's field check
      and then `fileFilter`. The count is checked first: a part over the
      limit never reaches the other two. */
  predicate PartAdmitted(parts: seq<Part>, k: nat)
    requires k < |parts|
  {
    k < MaxFiles && FieldAccepted(parts, k) && FileFilter(parts[k].fieldname, parts[k].mimetype).Ok?
  }

  /** The error that refuses part `k`: the file count's when the part
      is over it, then multer's own when the field check fails,
      otherwise the one `fileFilter` passes on. */
  function Refusal(parts: seq<Part>, k: nat): (err: ServerError)
    requires k < |parts|
    ensures err.MulterError? <==> MaxFiles <= k || !FieldAccepted(parts, k)
    ensures err.message ==
      if MaxFiles <= k then TooManyFiles
      else if err.MulterError? then UnexpectedField
      else InvalidFileType
  {
    if MaxFiles <= k then MulterError(TooManyFiles)
    else if !FieldAccepted(parts, k) then MulterError(UnexpectedField)
    else OtherError(InvalidFileType)
  }

  /** Multer handles the parts from `k` on in arrival order and stops at
      the first one it refuses. */
  function AdmitFrom(parts: seq<Part>, k: nat): (r: Option<ServerError>)
    requires k <= |parts|
    ensures r.None? <==> forall i :: k <= i < |parts| ==> PartAdmitted(parts, i)
    decreases |parts| - k
  {
    if k == |parts| then None
    else if !PartAdmitted(parts, k) then Some(Refusal(parts, k))
    else AdmitFrom(parts, k + 1)
  }

  /** The whole request's files: admitted exactly when every field is
      `audio` or `context`, no field carries two files, and every file
      passes `fileFilter`; otherwise the error of the first part that is
      refused. */
  function AdmitParts(parts: seq<Part>): (r: Option<ServerError>)
    ensures r.None? <==>
      (forall i :: 0 <= i < |parts| ==>
        (parts[i].fieldname == "audio" || parts[i].fieldname == "context") &&
        FileFilter(parts[i].fieldname, parts[i].mimetype).Ok?) &&
      (forall i, j :: 0 <= i < j < |parts| ==> parts[i].fieldname != parts[j].fieldname)
    ensures r.None? ==> |parts| <= MaxFiles
    ensures r.Some? ==>
      r.value == MulterError(TooManyFiles) || r.value == MulterError(UnexpectedField) ||
      r.value == OtherError(InvalidFileType)
  {
    var r := AdmitFrom(parts, 0);
    EveryPartAdmitted(parts);
    if r.Some? then
      var k := FirstRefused(parts, 0);
      FirstRefusalWins(parts, 0, k);
      r
    else
      DeclaredFieldsFitTheCount(parts, |parts|);
      r
  }

  /** Every part passes both checks exactly when every field is
      declared and used once and every file passes the filter. */
  lemma EveryPartAdmitted(parts: seq<Part>)
    ensures (forall i :: 0 <= i < |parts| ==> PartAdmitted(parts, i)) <==>
      (forall i :: 0 <= i < |parts| ==>
        (parts[i].fieldname == "audio" || parts[i].fieldname == "context") &&
        FileFilter(parts[i].fieldname, parts[i].mimetype).Ok?) &&
      (forall i, j :: 0 <= i < j < |parts| ==> parts[i].fieldname != parts[j].fieldname)
  {
    if forall i :: 0 <= i < |parts| ==> PartAdmitted(parts, i) {
      forall i | 0 <= i < |parts|
        ensures parts[i].fieldname == "audio" || parts[i].fieldname == "context"
        ensures FileFilter(parts[i].fieldname, parts[i].mimetype).Ok?
      {
        assert PartAdmitted(parts, i);
      }
      forall i, j | 0 <= i < j < |parts| ensures parts[i].fieldname != parts[j].fieldname {
        assert PartAdmitted(parts, j);
        assert FieldAccepted(parts, j);
      }
    } else if (forall i, j :: 0 <= i < j < |parts| ==> parts[i].fieldname != parts[j].fieldname) &&
              (forall i :: 0 <= i < |parts| ==> parts[i].fieldname == "audio" || parts[i].fieldname == "context") {
      DeclaredFieldsFitTheCount(parts, |parts|);
      forall i | 0 <= i < |parts| && FileFilter(parts[i].fieldname, parts[i].mimetype).Ok?
        ensures PartAdmitted(parts, i)
      {
        assert forall l :: 0 <= l < i ==> parts[l].fieldname != parts[i].fieldname;
      }
    }
  }

  /** Two declared fields with one file each: parts on declared fields,
      no field used twice, are never more than the file count allows, so
      the count only ever refuses a part that the field check would
      refuse too. */
  lemma DeclaredFieldsFitTheCount(parts: seq<Part>, n: nat)
    requires n <= |parts|
    requires forall i :: 0 <= i < n ==> parts[i].fieldname == "audio" || parts[i].fieldname == "context"
    requires forall i, j :: 0 <= i < j < n ==> parts[i].fieldname != parts[j].fieldname
    ensures n <= MaxFiles
  {
    ThirdPartRepeatsAField(parts);
  }

  /** Three parts on the two declared fields: two of them share one. */
  lemma ThirdPartRepeatsAField(parts: seq<Part>)
    ensures (MaxFiles < |parts| &&
             forall i :: 0 <= i <= MaxFiles ==> parts[i].fieldname == "audio" || parts[i].fieldname == "context") ==>
      parts[0].fieldname == parts[1].fieldname || parts[0].fieldname == parts[2].fieldname ||
      parts[1].fieldname == parts[2].fieldname
  {
  }

  /** The first part from `k` on that is refused. */
  function FirstRefused(parts: seq<Part>, k: nat): (j: nat)
    requires k <= |parts|
    requires exists i :: k <= i < |parts| && !PartAdmitted(parts, i)
    ensures k <= j < |parts| && !PartAdmitted(parts, j)
    ensures forall i :: k <= i < j ==> PartAdmitted(parts, i)
    decreases |parts| - k
  {
    if !PartAdmitted(parts, k) then k else FirstRefused(parts, k + 1)
  }

  /** When every part from `k` up to `j` is admitted and part `j` is
      not, the request is refused with part `j`'s error. */
  lemma {:induction false} FirstRefusalWins(parts: seq<Part>, k: nat, j: nat)
    requires k <= j < |parts|
    requires forall i :: k <= i < j ==> PartAdmitted(parts, i)
    requires !PartAdmitted(parts, j)
    ensures AdmitFrom(parts, k) == Some(Refusal(parts, j))
    decreases j - k
  {
    if k < j {
      FirstRefusalWins(parts, k + 1, j);
    }
  }

  /** A file of a type the filter refuses, on a declared field used
      for the first time, is answered with 500 'Server error', not with
      a 400: the filter's error is not a multer error. */
  lemma RejectedTypeIsServerError(parts: seq<Part>, k: nat)
    requires k < |parts| && forall i :: 0 <= i < k ==> PartAdmitted(parts, i)
    requires FieldAccepted(parts, k) && FileFilter(parts[k].fieldname, parts[k].mimetype).Err?
    ensures AdmitParts(parts) == Some(OtherError(InvalidFileType))
    ensures ErrorHandlerResponse(AdmitParts(parts).value)
         == Response(500, ErrorBody("Server error", Some(InvalidFileType)))
  {
    forall i | 0 <= i < k + 1
      ensures parts[i].fieldname == "audio" || parts[i].fieldname == "context"
    {
      if i < k { assert PartAdmitted(parts, i); }
    }
    forall i, j | 0 <= i < j < k + 1 ensures parts[i].fieldname != parts[j].fieldname {
      if j < k { assert PartAdmitted(parts, j); } else { assert FieldAccepted(parts, k); }
    }
    DeclaredFieldsFitTheCount(parts, k + 1);
    FirstRefusalWins(parts, 0, k);
  }

  /** Within the file count, a file on an undeclared field, or a second
      file on `audio` or `context`, is refused by multer itself before
      the filter runs, and answered with 400 'File upload error'. */
  lemma UnexpectedFieldIsUploadError(parts: seq<Part>, k: nat)
    requires k < |parts| && forall i :: 0 <= i < k ==> PartAdmitted(parts, i)
    requires k < MaxFiles && !FieldAccepted(parts, k)
    ensures AdmitParts(parts) == Some(MulterError(UnexpectedField))
    ensures ErrorHandlerResponse(AdmitParts(parts).value)
         == Response(400, ErrorBody("File upload error", Some(UnexpectedField)))
  {
    FirstRefusalWins(parts, 0, k);
  }

  /** Two recordings on `audio` are refused with 400, even when both
      types are allowed. */
  lemma SecondAudioFileRefused()
    ensures AdmitParts([Part("audio", "audio/mpeg"), Part("audio", "audio/wav")]) == Some(MulterError(UnexpectedField))
  {
    var parts := [Part("audio", "audio/mpeg"), Part("audio", "audio/wav")];
    assert FileFilter("audio", "audio/mpeg").Ok? by {
      assert AllowedAudioTypes[0] == "audio/mpeg";
    }
    assert PartAdmitted(parts, 0);
    UnexpectedFieldIsUploadError(parts, 1);
  }

  /** A third file part after two admitted ones is refused by the file
      count, before the field check and the filter, and answered with
      400 'File upload error' and `Too many files`. */
  lemma ThirdFileIsUploadError(parts: seq<Part>)
    requires MaxFiles < |parts| && PartAdmitted(parts, 0) && PartAdmitted(parts, 1)
    ensures AdmitParts(parts) == Some(MulterError(TooManyFiles))
    ensures ErrorHandlerResponse(AdmitParts(parts).value)
         == Response(400, ErrorBody("File upload error", Some(TooManyFiles)))
  {
    FirstRefusalWins(parts, 0, 2);
  }

  /** A recording, a document and a second document: the third part is
      over the file count, so the answer names the count and not the
      repeated field. */
  lemma SecondContextFileIsOneTooMany()
    ensures AdmitParts([Part("audio", "audio/mpeg"), Part("context", "application/pdf"),
                        Part("context", "application/pdf")]) == Some(MulterError(TooManyFiles))
  {
    var parts := [Part("audio", "audio/mpeg"), Part("context", "application/pdf"),
                  Part("context", "application/pdf")];
    assert FileFilter("audio", "audio/mpeg").Ok? by {
      assert AllowedAudioTypes[0] == "audio/mpeg";
    }
    assert FileFilter("context", "application/pdf").Ok? by {
      assert AllowedContextTypes[0] == "application/pdf";
    }
    assert PartAdmitted(parts, 0);
    assert PartAdmitted(parts, 1);
    ThirdFileIsUploadError(parts);
  }

  /** A file on an undeclared field is refused with 400 whatever its
      type. */
  lemma UndeclaredFieldRefused(mimetype: string)
    ensures AdmitParts([Part("foo", mimetype)]) == Some(MulterError(UnexpectedField))
  {
    UnexpectedFieldIsUploadError([Part("foo", mimetype)], 0);
  }

  /** Everything the handler depends on besides the request. */
  datatype UploadEnv = UploadEnv(
    variant: Variant,
    convert: Result<()>,               // ffmpeg's conversion to MP3
    probe: Result<nat>,                // Math.floor of ffprobe's duration
    chunks: nat -> ChunkOracle,        // the per-chunk calls, by chunk index
    summary: SummaryEnv,
    now: nat,                          // Date.now() when the summary is saved
    saveSummary: Result<()>,           // fs.writeFileSync of the summary
    unlink: string -> Result<()>)      // fs.promises.unlink during cleanup

  /** Where the summary is saved: `summary-<now>.txt` under `/tmp`
      (`app.mjs`) or under `<appDir>/uploads` (`app.js`). */
  function SummaryPath(variant: Variant, now: nat): (p: string)
    ensures EndsWith(p, ".txt")
  {
    var dir := if variant.Esm? then "/tmp" else variant.appDir + "/uploads";
    dir + "/summary-" + DecimalString(now) + ".txt"
  }

  /** Two summaries saved at different milliseconds never share a file. */
  lemma SummaryPathsDistinct(variant: Variant, now1: nat, now2: nat)
    requires now1 != now2
    ensures SummaryPath(variant, now1) != SummaryPath(variant, now2)
  {
    var dir := if variant.Esm? then "/tmp" else variant.appDir + "/uploads";
    var prefix := dir + "/summary-";
    var d1, d2 := DecimalString(now1), DecimalString(now2);
    var p1, p2 := SummaryPath(variant, now1), SummaryPath(variant, now2);
    if p1 == p2 {
      assert p1 == prefix + d1 + ".txt";
      assert p2 == prefix + d2 + ".txt";
      assert |d1| == |d2|;
      assert p1[|prefix|..|prefix| + |d1|] == d1;
      assert p2[|prefix|..|prefix| + |d2|] == d2;
      DecimalInjective(now1, now2);
    }
  }

  /** `path.basename(p)` for a path that does not end with `/`: the part
      after the last `/`. */
  function Basename(p: string): (r: string)
    ensures '/' !in r
    ensures |r| <= |p| && p[|p| - |r|..] == r
    ensures |r| < |p| ==> p[|p| - |r| - 1] == '/'
  {
    if p == [] || p[|p| - 1] == '/' then []
    else Basename(p[..|p| - 1]) + [p[|p| - 1]]
  }

  /** `downloadUrl`, which only `app.js` sends. */
  function DownloadUrl(variant: Variant, finalAudioPath: string): (url: Option<string>)
    ensures url.None? <==> variant.Esm?
    ensures url.Some? ==> |url.value| >= 9 && url.value[..9] == "/uploads/" && '/' !in url.value[9..]
    ensures url.Some? ==> EndsWith(finalAudioPath, url.value[9..])
    ensures url.Some? && |url.value| - 9 < |finalAudioPath| ==>
      finalAudioPath[|finalAudioPath| - (|url.value| - 9) - 1] == '/'
  {
    if variant.Esm? then None else Some("/uploads/" + Basename(finalAudioPath))
  }

  /** The 500 answer of the route's `catch`. */
  function Failure(message: string): (r: Response)
    ensures r.status == 500 && r.body.ErrorBody?
    ensures r.body.error == ProcessingFailed && r.body.details == Some(message)
  {
    Response(500, ErrorBody(ProcessingFailed, Some(message)))
  }

  /** The answer and the files left on disk. */
  datatype Outcome = Outcome(response: Response, files: set<string>)

  /** The `try` block after validation: conversion, transcription,
      summary, saving the summary; the first failure becomes the 500
      answer carrying its message. */
  function Process(files: set<string>, audio: UploadedFile, instruction: string, contextPath: Option<string>,
                   generalInfo: Option<string>, env: UploadEnv): (out: Outcome)
    ensures out.response.status == 200 || out.response.status == 500
    ensures out.response.status == 200 ==> SummaryPath(env.variant, env.now) in out.files
    ensures out.response.status == 500 ==>
      out.response.body.ErrorBody? && out.response.body.error == ProcessingFailed && out.response.body.details.Some?
  {
    var target := ConversionTarget(audio);
    if target.Some? && env.convert.Err? then Outcome(Failure(env.convert.message), files)
    else
      var finalAudioPath := if target.Some? then target.value else audio.path;
      var converted := if target.Some? then files + {target.value} else files;
      if env.probe.Err? then Outcome(Failure(env.probe.message), converted)
      else
        var chunked := FilesAfterJob(converted, finalAudioPath, Plan(env.probe.value), env.chunks);
        var transcript := LongAudioTranscript(env.probe.value, env.chunks);
        if transcript.Err? then Outcome(Failure(transcript.message), chunked)
        else
          var summary := GenerateSummary(transcript.value, instruction, contextPath, generalInfo, env.summary);
          if summary.Err? then Outcome(Failure(summary.message), chunked)
          else if env.saveSummary.Err? then Outcome(Failure(env.saveSummary.message), chunked)
          else
            var outputFilePath := SummaryPath(env.variant, env.now);
            Outcome(Response(200, SuccessBody(ProcessingCompleted, summary.value, outputFilePath,
                                              DownloadUrl(env.variant, finalAudioPath))),
                    chunked + {outputFilePath})
  }

  /** `fs.promises.unlink` of each path in turn; a failed deletion is
      logged and the next one still runs. */
  function UnlinkAll(files: set<string>, paths: seq<string>, unlink: string -> Result<()>): (after: set<string>)
    ensures after <= files
    ensures forall p :: p in files - after ==> p in paths
  {
    if paths == [] then files
    else
      var last := paths[|paths| - 1];
      var before := UnlinkAll(files, paths[..|paths| - 1], unlink);
      assert forall p :: p in paths[..|paths| - 1] ==> p in paths;
      if unlink(last).Ok? then before - {last} else before
  }

  /** The cleanup removes exactly the listed paths whose deletion
      succeeds, and nothing else. */
  lemma {:induction false} UnlinkAllRemoves(files: set<string>, paths: seq<string>, unlink: string -> Result<()>)
    ensures UnlinkAll(files, paths, unlink) == files - (set p | p in paths && unlink(p).Ok?)
  {
    if paths != [] {
      var init := paths[..|paths| - 1];
      UnlinkAllRemoves(files, init, unlink);
      assert forall p :: p in paths <==> p in init || p == paths[|paths| - 1];
    }
  }

  /** The answer and the files before `finally`: the 400 of validation
      (nothing written), or the outcome of the `try` block. */
  function Handled(files: set<string>, req: Request, env: UploadEnv): (out: Outcome)
    ensures out.response.status == 400 <==> Validate(req).Some?
    ensures Validate(req).Some? ==> out.files == files
  {
    if Validate(req).Some? then Outcome(Validate(req).value, files)
    else Process(files, req.audio.value, req.instruction.value, ContextPath(req), req.generalInfo, env)
  }

  /** The whole route: the handled request, then the cleanup in
      `finally`, which runs whatever the answer. */
  function Upload(files: set<string>, req: Request, env: UploadEnv): (out: Outcome)
    ensures out.response.status == 400 <==> Validate(req).Some?
    ensures out.response.status in {200, 400, 500}
  {
    var handled := Handled(files, req, env);
    Outcome(handled.response, UnlinkAll(handled.files, CleanupPaths(req), env.unlink))
  }

  /** The answer is 200 exactly when validation passes and every step of
      the `try` block succeeds; it then carries the chat model's reply
      to the transcript of the (converted) recording and the path the
      summary was saved to. */
  lemma UploadSucceedsIff(files: set<string>, req: Request, env: UploadEnv)
    ensures Upload(files, req, env).response.status == 200 <==>
      Validate(req).None? &&
      (ConversionTarget(req.audio.value).Some? ==> env.convert.Ok?) &&
      env.probe.Ok? && LongAudioTranscript(env.probe.value, env.chunks).Ok? &&
      GenerateSummary(LongAudioTranscript(env.probe.value, env.chunks).value, req.instruction.value,
                      ContextPath(req), req.generalInfo, env.summary).Ok? &&
      env.saveSummary.Ok?
    ensures Upload(files, req, env).response.status == 200 ==>
      var body := Upload(files, req, env).response.body;
      body.SuccessBody? && body.message == ProcessingCompleted &&
      body.summary == GenerateSummary(LongAudioTranscript(env.probe.value, env.chunks).value, req.instruction.value,
                                      ContextPath(req), req.generalInfo, env.summary).value &&
      body.summaryPath == SummaryPath(env.variant, env.now)
  {
  }

  /** A failed `try` block answers 500 'An error occurred during
      processing' with the message of the first step that failed, in
      order: the conversion, the duration probe, or the transcription
      (the lowest failing chunk's error). */
  lemma FailureBeforeTranscript(files: set<string>, audio: UploadedFile, instruction: string,
                                contextPath: Option<string>, generalInfo: Option<string>, env: UploadEnv)
    ensures var resp := Process(files, audio, instruction, contextPath, generalInfo, env).response;
      var converted := ConversionTarget(audio).None? || env.convert.Ok?;
      (!converted ==> resp == Failure(env.convert.message)) &&
      (converted && env.probe.Err? ==> resp == Failure(env.probe.message)) &&
      (converted && env.probe.Ok? && LongAudioTranscript(env.probe.value, env.chunks).Err? ==>
         resp == Failure(LongAudioTranscript(env.probe.value, env.chunks).message))
  {
  }

  /** After a transcript, the message of a failed summary (which
      `GenerateSummary` states to be 'System prompt not found' or
      'Failed to generate summary') or of a failed save of the summary
      is the message of the 500 answer. */
  lemma FailureAfterTranscript(files: set<string>, audio: UploadedFile, instruction: string,
                               contextPath: Option<string>, generalInfo: Option<string>, env: UploadEnv)
    requires ConversionTarget(audio).None? || env.convert.Ok?
    requires env.probe.Ok? && LongAudioTranscript(env.probe.value, env.chunks).Ok?
    ensures var resp := Process(files, audio, instruction, contextPath, generalInfo, env).response;
      var summary := GenerateSummary(LongAudioTranscript(env.probe.value, env.chunks).value,
                                     instruction, contextPath, generalInfo, env.summary);
      (summary.Err? ==> resp == Failure(summary.message)) &&
      (summary.Ok? && env.saveSummary.Err? ==> resp == Failure(env.saveSummary.message))
  {
  }

  /** After `finally`, every path the cleanup lists whose deletion
      succeeds is gone, whatever the answer was, and nothing else was
      deleted by it. */
  lemma CleanupRemovesUploads(files: set<string>, req: Request, env: UploadEnv)
    ensures Upload(files, req, env).files
         == Handled(files, req, env).files - (set p | p in CleanupPaths(req) && env.unlink(p).Ok?)
    ensures forall p :: p in CleanupPaths(req) && env.unlink(p).Ok? ==> p !in Upload(files, req, env).files
  {
    UnlinkAllRemoves(Handled(files, req, env).files, CleanupPaths(req), env.unlink);
  }

  /** A request refused with 400 writes nothing: only its uploads are
      deleted. */
  lemma RejectedRequestOnlyCleansUp(files: set<string>, req: Request, env: UploadEnv)
    requires Validate(req).Some?
    ensures Upload(files, req, env).files == files - (set p | p in CleanupPaths(req) && env.unlink(p).Ok?)
  {
    CleanupRemovesUploads(files, req, env);
  }

  /** With a suffix that agrees with its MIME type, the MP3 the
      conversion wrote does not outlive the request once its deletion
      succeeds; neither does the upload. */
  lemma ConvertedFileRemoved(files: set<string>, req: Request, env: UploadEnv)
    requires req.audio.Some?
    requires (req.audio.value.mimetype == "audio/x-m4a" && EndsWith(req.audio.value.path, ".m4a")) ||
             (req.audio.value.mimetype == "audio/webm" && EndsWith(req.audio.value.path, ".webm"))
    requires env.unlink(req.audio.value.path).Ok?
    requires env.unlink(ConversionTarget(req.audio.value).value).Ok?
    ensures ConversionTarget(req.audio.value).value !in Upload(files, req, env).files
    ensures req.audio.value.path !in Upload(files, req, env).files
  {
    var audio := req.audio.value;
    ConversionAndCleanupAgree(audio);
    var mp3 := CleanupMp3Path(audio.path);
    assert EndsWith(ConversionTarget(audio).value, ".mp3");
    assert mp3 != "";
    assert audio.path != "";
    CleanupRemovesUploads(files, req, env);
  }

  /** A successful answer leaves its summary file on disk, unless the
      cleanup list happens to name it. */
  lemma SummaryFileKept(files: set<string>, req: Request, env: UploadEnv)
    requires Upload(files, req, env).response.status == 200
    requires SummaryPath(env.variant, env.now) !in CleanupPaths(req)
    ensures SummaryPath(env.variant, env.now) in Upload(files, req, env).files
  {
    CleanupRemovesUploads(files, req, env);
  }

  /** `cleanupFile` for each listed path in turn. The deletions are not
      awaited in the source; here they run to completion one after the
      other. */
  method CleanUp(storage: Storage, paths: seq<string>, unlink: string -> Result<()>)
    modifies storage
    ensures storage.files == UnlinkAll(old(storage.files), paths, unlink)
  {
    var i := 0;
    while i < |paths|
      invariant 0 <= i <= |paths|
      invariant storage.files == UnlinkAll(old(storage.files), paths[..i], unlink)
    {
      var deleted := storage.Unlink(paths[i], unlink(paths[i]));
      assert paths[..i + 1][..i] == paths[..i];
      i := i + 1;
    }
    assert paths[..|paths|] == paths;
  }

  /** The route handler: validate, convert, transcribe, summarise, save,
      answer, and in every case clean up. */
  method HandleUpload(storage: Storage, req: Request, env: UploadEnv) returns (resp: Response)
    modifies storage
    ensures resp == Upload(old(storage.files), req, env).response
    ensures storage.files == Upload(old(storage.files), req, env).files
  {
    var validation := Validate(req);
    if validation.Some? {
      resp := validation.value;
    } else {
      var audio := req.audio.value;
      var finalAudioPath := audio.path;
      var failed: Option<string> := None;
      if audio.mimetype == "audio/x-m4a" {
        var mp3Path := ReplaceSuffix(audio.path, ".m4a", ".mp3");
        var converted := storage.Write(mp3Path, env.convert);
        if converted.Err? {
          failed := Some(converted.message);
        } else {
          finalAudioPath := mp3Path;
        }
      }
      if failed.None? && audio.mimetype == "audio/webm" {
        var mp3Path := ReplaceSuffix(audio.path, ".webm", ".mp3");
        var converted := storage.Write(mp3Path, env.convert);
        if converted.Err? {
          failed := Some(converted.message);
        } else {
          finalAudioPath := mp3Path;
        }
      }
      if failed.None? {
        var transcriptionText := ChunkAndTranscribe(storage, finalAudioPath, env.probe, env.chunks);
        if transcriptionText.Err? {
          failed := Some(transcriptionText.message);
        } else {
          var summaryText := GenerateSummary(transcriptionText.value, req.instruction.value, ContextPath(req),
                                             req.generalInfo, env.summary);
          if summaryText.Err? {
            failed := Some(summaryText.message);
          } else {
            var outputFilePath := SummaryPath(env.variant, env.now);
            var saved := storage.Write(outputFilePath, env.saveSummary);
            if saved.Err? {
              failed := Some(saved.message);
            } else {
              resp := Response(200, SuccessBody(ProcessingCompleted, summaryText.value, outputFilePath,
                                                DownloadUrl(env.variant, finalAudioPath)));
            }
          }
        }
      }
      if failed.Some? {
        resp := Failure(failed.value);
      }
    }
    CleanUp(storage, CleanupPaths(req), env.unlink);
  }

  /** `contextFile ? contextFile.path : null`. */
  function ContextPath(req: Request): (path: Option<string>)
    ensures path.Some? <==> req.context.Some?
    ensures path.Some? ==> path.value == req.context.value.path
  {
    if req.context.Some? then Some(req.context.value.path) else None
  }
}
