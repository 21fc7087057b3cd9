# Meeting-transcription server — a verified model of its core

The server accepts an audio recording (plus, optionally, a context
document, an instruction and a JSON object of meeting details) on
`POST /upload`. It converts `.m4a`/`.webm` recordings to MP3, cuts the
recording into five-minute windows and transcribes them in parallel with
Whisper, puts the partial transcripts back in order, asks a chat model
for a summary, saves the summary, answers with JSON, and deletes the
uploaded files. The server exists twice, as `app.js` (CommonJS) and
`app.mjs` (ESM), with the same logic; this project is one model of both,
and the few places where they differ are a parameter (`Route.Variant`).

Modules (one file each):

- `Outcomes` (`outcomes.dfy`) — `Result` and `Option`.
- `JsStrings` (`js_strings.dfy`) — the JavaScript string operations the
  core relies on: `trim`, `join`, an end-anchored suffix `replace`,
  ASCII `toLowerCase`, and the decimal rendering of a number inside a
  template literal. It also holds two readers the server never calls:
  `Split` on one character, used to read the meeting details back line
  by line, and `EndsWith`, used to say what a `$`-anchored pattern
  matches.
- `ChunkPlan` (`chunk_plan.dfy`) — the planner loop of
  `chunkAndTranscribeAudioParallel`.
- `Transcript` (`transcript.dfy`) — the in-place sort by `index` and the
  `map/join('\n')/trim()` that follows it.
- `ChunkPipeline` (`chunk_pipeline.dfy`) — one chunk's task (extract,
  transcribe, unlink), the `Promise.all` fan-out taken in chunk order,
  the temporary chunk files, and the whole transcription step.
- `Uploads` (`uploads.dfy`) — multer's stored file name and `fileFilter`.
- `Summary` (`summary.dfy`) — `readContextFile`, the meeting-details
  template, the two prompt messages and `generateSummary`.
- `Route` (`route.dfy`) — the upload route (validation, conversion path,
  transcription, summary, saving, answer, cleanup) and the global error
  handler.

External calls (ffmpeg, ffprobe, Whisper, the chat completion, mammoth,
pdf-parse, `JSON.parse`, `path.extname`, `fs`) are inputs: each becomes
the outcome it would have (`Result` values, or functions from a chunk
index or a path to an outcome), and the files on disk are the `files`
set of a `ChunkPipeline.Storage` object that the methods update.

## Model

| member | source | states |
|---|---|---|
| ChunkPlan.NumChunks | app.js:189 | the chunk count is the least `n` with `n * 300 >= totalDuration` (`Math.ceil(totalDuration / 300)`) |
| ChunkPlan.Plan | app.mjs:209-216 | `NumChunks` windows; window `i` has index `i`; every duration lies in 1..300; all but the last are exactly 300; the first starts at 0; each starts where the previous ends; the last ends at `totalDuration` |
| ChunkPlan.PlanChunks | app.js:190-195 | the `for` loop that pushes one `{chunkIndex, startTime, duration}` per window builds exactly `Plan(totalDuration)` |
| ChunkPlan.PlanPrefixSum | app.js:191-194 | the first `k` windows cover `min(totalDuration, 300k)` seconds |
| ChunkPlan.PlanCoversTotal | app.js:185-195 | the window durations add up to the floored total duration: no gap, no overlap |
| ChunkPlan.PlanStartsIncrease | app.js:192 | a window ends no later than any later window starts, so starts strictly increase |
| ChunkPlan.EmptyAudioHasNoChunks | app.js:188-189 | a duration of 0 seconds plans no windows |
| ChunkPlan.PlanOf905Seconds | app.mjs:209-216 | 905 seconds give windows (0,0,300), (1,300,300), (2,600,300), (3,900,5) |
| JsStrings.TrimStart | app.js:219 | the result is a suffix of the input, all removed characters are ECMAScript white space or line terminators, and it does not start with one |
| JsStrings.TrimEnd | app.js:219 | the result is a prefix of the input, all removed characters are white space, and it does not end with one |
| JsStrings.Trim | app.js:219 | `trim()`: the result is a run of the input with only white space before and after it, and a non-empty result neither starts nor ends with white space |
| JsStrings.TrimKeepsTrimmed | app.js:219 | a string without white space at either end is its own trim |
| JsStrings.TrimIdempotent | app.js:219 | trimming twice equals trimming once |
| JsStrings.Join | app.js:219 | `join(sep)`: the empty list gives `""`, otherwise the result starts with the first element |
| JsStrings.Split | app.mjs:274-281 | a reader, not called by the server, used to read the meeting-details block back: at least one piece, and no piece contains `c` |
| JsStrings.SplitPlain | app.mjs:274-281 | reading back: a string without `c` splits into itself alone |
| JsStrings.SplitAfterPiece | app.mjs:274-281 | reading back: splitting `x + c + t` gives `x` followed by the pieces of `t` |
| JsStrings.Terminated | app.mjs:274-281 | concatenating lines that each end in the separator: the result starts with the first line and its separator, and ends with the separator |
| JsStrings.JoinTerminated | app.mjs:274-281 | terminating every line is joining the lines plus one final empty piece |
| JsStrings.SplitJoin | app.mjs:274-281 | reading back: split undoes join for a non-empty list of pieces that do not contain the separator |
| JsStrings.ReplaceSuffix | app.mjs:362 | `replace(/\.ext$/, repl)`: when the input ends with the suffix, the result ends with the replacement and keeps everything before the suffix; otherwise it is the input unchanged |
| JsStrings.LowerAscii | app.mjs:89 | same length; exactly the upper-case ASCII letters change, each to its lower-case letter (code point plus 32) |
| JsStrings.DecimalString | app.js:52-54 | a number in a template literal: non-empty, only digits, no leading zero |
| JsStrings.DecimalRoundTrip | app.js:52-54 | reading the digits back gives the number |
| JsStrings.DecimalInjective | app.js:203 | different numbers render differently |
| Transcript.Texts | app.js:219 | `map(pt => pt.text)`: same length, element `i` is the text of pair `i` |
| Transcript.JoinTexts | app.js:219 | `map/join('\n')/trim()` on pairs already in order: no pairs give `""`, one pair gives its trimmed text, and the result never starts or ends with white space |
| Transcript.Insert | app.js:218 | inserting into a list sorted by index keeps it sorted and adds exactly that pair |
| Transcript.InIndexOrder | app.js:218 | a reference sort: sorted by index and a permutation of its input |
| Transcript.TranscriptOf | app.js:218-219 | the assembler's result for pairs in any arrival order: no pairs give `""`, and the result never starts or ends with white space |
| Transcript.DistinctIndicesDetermine | app.js:212 | with distinct indices, a pair is determined by its index |
| Transcript.IndexDeterminesOfPermutation | app.js:218 | that property survives any permutation |
| Transcript.SortedHeadsAgree | app.js:218 | two sorted permutations of the same pairs, with indices determining pairs, start with the same pair |
| Transcript.TailsArePermutations | app.js:218 | removing equal heads from two permutations leaves permutations |
| Transcript.TailIndexDetermines | app.js:218 | indices still determine pairs after the head is removed |
| Transcript.SortedPermutationUnique | app.js:218 | two index-sorted permutations of pairs with distinct indices are equal: the sort result is unique |
| Transcript.TranscriptOrderIndependent | app.js:218-219 | for pairs with distinct indices, the transcript does not depend on the order the pairs arrived in |
| Transcript.TranscriptOfOrdered | app.js:218-219 | when pair `i` has index `i`, the transcript is the texts in that order joined by `\n` and trimmed |
| Transcript.SwapWithPrevious | app.mjs:240 | one exchange of neighbouring pairs changes only those two slots and keeps the array's contents |
| Transcript.SinkIntoPlace | app.mjs:240 | one insertion step extends the sorted prefix by one slot, leaves every slot after it as it was, and keeps the array's contents |
| Transcript.SortByIndex | app.mjs:240 | the in-place sort by `index` leaves the array sorted and a permutation of what it held |
| Transcript.AssembleTranscript | app.js:218-219 | sorts the array in place and returns the joined, trimmed texts of the sorted array; for distinct indices that is the order-independent transcript of the pairs as they arrived |
| Transcript.EmptyTranscript | app.js:219 | no pairs give `""` |
| Transcript.JoinFour | app.js:219 | `join('\n')` of four texts puts one newline between consecutive texts |
| Transcript.JoinFourTexts | app.js:219 | the texts of four ordered pairs join to `t0\nt1\nt2\nt3`, trimmed |
| Transcript.FourInOrder | app.js:218-219 | pairs already in order give that trimmed text |
| Transcript.FourChunksOutOfOrder | app.js:218-219 | pairs arriving as indices 2, 0, 3, 1 still give `trim(t0\nt1\nt2\nt3)` |
| Transcript.TrimMockedTranscript | app.js:219 | `seg0\nseg1\nseg2\nseg3` has nothing to trim |
| Transcript.FourMockedSegments | app.js:218-219 | segments `seg2, seg0, seg3, seg1` arriving out of order assemble to `seg0\nseg1\nseg2\nseg3` |
| ChunkPipeline.ChunkPath | app.js:203 | `${filePath}_chunk_${chunkIndex}.mp3`: starts with the recording's path and ends with `.mp3` |
| ChunkPipeline.ChunkPathsDistinct | app.js:203 | `${filePath}_chunk_${i}.mp3` differs for different `i`, so no two tasks share a file |
| ChunkPipeline.Storage.constructor | app.js:203-207 | an abstraction of the disk the chunk files are written to and deleted from: it starts with the given files |
| ChunkPipeline.Storage.Write | app.js:136-155 | a successful `ffmpeg …save(path)` or `writeFileSync(path)` adds `path`; a failed one changes nothing; the outcome is returned |
| ChunkPipeline.Storage.Unlink | app.js:207 | a successful `fs.promises.unlink(path)` removes `path`; a failed one changes nothing |
| ChunkPipeline.ChunkResult | app.js:202-213 | a task resolves exactly when extraction and transcription both succeed, with `{index: chunkIndex, text}`; otherwise it rejects with the error of the first failing step; the unlink plays no part |
| ChunkPipeline.FilesAfterChunk | app.js:204-211 | the chunk file stays behind when the transcription fails or the unlink fails, is gone when all three steps succeed, and was never written when extraction fails |
| ChunkPipeline.UnlinkFailureIsSwallowed | app.js:206-211 | a failed unlink leaves the returned pair as it would have been and only leaves the chunk file behind |
| ChunkPipeline.TranscriptionErrorKeepsChunkFile | app.js:168-171 | a transcription error rejects the chunk task and the chunk file is not deleted |
| ChunkPipeline.JobResult | app.js:200-215 | `Promise.all` over the chunk tasks: a resolved job holds one pair per chunk (the lemmas below say which) |
| ChunkPipeline.FilesAfterJob | app.js:200-215 | the directory after every chunk task: only the job's own chunk files are added or removed |
| ChunkPipeline.ChunkTask | app.mjs:222-235 | the step sequence settles with `ChunkResult` and leaves the directory as `FilesAfterChunk` says |
| ChunkPipeline.JobSucceedsIffEveryChunk | app.js:200-215 | `Promise.all` resolves exactly when every task does, and then holds each chunk's `{index, text}` in chunk order |
| ChunkPipeline.JobFailsWithFirstError | app.js:200-215 | when it rejects, the error is that of a failing task, and every earlier task succeeded |
| ChunkPipeline.FilesAfterJobClosedForm | app.js:200-215 | after the fan-out the directory has lost the chunk files that were deleted and gained the ones left behind, whatever the job's outcome |
| ChunkPipeline.RunChunkTasks | app.mjs:220-237 | running every task in chunk order gives the job's result and the directory `FilesAfterJob` describes |
| ChunkPipeline.ChunkTexts | app.js:219 | one text per chunk |
| ChunkPipeline.LongAudioTranscript | app.js:175-220 | the transcription step's result: a successful transcript never starts or ends with white space |
| ChunkPipeline.LongAudioTranscriptFailsIff | app.js:175-220 | the transcription step fails exactly when some planned chunk fails to extract or transcribe |
| ChunkPipeline.LongAudioTranscriptIsOrderedJoin | app.js:175-220 | when it succeeds, the transcript is the chunk texts in chunk order joined by `\n` and trimmed |
| ChunkPipeline.SilentFileGivesEmptyTranscript | app.js:188-219 | a recording of 0 whole seconds gives the empty transcript |
| ChunkPipeline.ChunkAndTranscribe | app.mjs:193-241 | a failed probe rejects with its error and touches nothing; otherwise the result and the directory are those of the planned fan-out followed by the in-place sort and join |
| Uploads.Sanitize | app.js:53 | same length as the original; letters, digits and `.` kept in place; every other character becomes `_` |
| Uploads.SanitizedCharacters | app.js:53 | a stored name holds only letters, digits, `.` and `_` |
| Uploads.SanitizeIdempotent | app.js:53 | sanitising twice equals sanitising once |
| Uploads.SanitizeKeepsCleanNames | app.js:53 | a name of letters, digits and dots is stored unchanged |
| Uploads.StoredName | app.js:52-54 | `${timestamp}-${sanitizedName}`: one character per digit, one `-` and one per original character, all of them letters, digits, `.`, `_` or `-` |
| Uploads.StoredNameSplits | app.mjs:58-60 | the stored name is the timestamp's digits, then the first `-`, then the sanitised name, and the digits read back as the timestamp |
| Uploads.StoredNameKeepsExtension | app.mjs:58-60 | an extension of kept characters such as `.m4a` or `.webm` survives into the stored name |
| Uploads.FileFilter | app.mjs:66-84 | accepts exactly an `audio` field with one of the 5 audio types or a `context` field with one of the 3 document types; anything else is refused with `Invalid file type` |
| Uploads.FileFilterFieldsDisjoint | app.js:60-78 | no MIME type is accepted on both fields |
| Summary.ContextKindOf | app.mjs:89-101 | `.docx` (any case) selects mammoth, `.pdf` selects pdf-parse, every other extension the plain-text read |
| Summary.DocIsReadAsText | app.mjs:89-101 | an accepted `.doc` document is read as UTF-8 text |
| Summary.UpperCaseExtensions | app.mjs:89 | `.DOCX` and `.PDF` take the docx and pdf branches |
| Summary.ReadContextFile | app.mjs:87-107 | the trimmed text of the selected reader, or `Error reading context file: <message>` when it throws; never an error |
| Summary.GeneralInfoLines | app.mjs:274-281 | the block's seven lines: the header `Algemene Gegevens:`, then `Datum: `, `Locatie: `, `Deelnemers: `, `Afwezigen: `, `Doel van het gesprek: ` and `Vertrouwelijkheid: `, each followed by its field (date, location, participants, absentees, purpose, confidentiality), in that order |
| Summary.GeneralInfoTemplate | app.mjs:274-281 | the meeting-details block starts with the line `Algemene Gegevens:` and ends with a newline |
| Summary.TemplateIsJoinedLines | app.mjs:274-281 | the block is its seven lines, each followed by `\n` |
| Summary.TemplateSplitsIntoLabelledLines | app.mjs:274-281 | when no field holds a newline, the block reads back line by line as `Algemene Gegevens:` and the six labelled fields in their fixed order |
| Summary.GeneralInfoContent | app.mjs:270-286 | empty without `generalInfo`; the raw value when parsing fails; otherwise the block, which starts with `Algemene Gegevens:\n` |
| Summary.SystemTail | app.mjs:292 | after the system prompt: `\nGebruik de volgende algemene gegevens: `, the meeting details, `\nGebruik deze context (indien aanwezig): `, the context and the HTML instructions, each at its fixed offset |
| Summary.SummaryMessages | app.mjs:289-298 | exactly two messages, system then user; the system message is the system prompt followed by `SystemTail` of the meeting details and the context; the user message is `Hier is de transcriptie. Maak een verslag:\n` followed by the transcript |
| Summary.SystemMessageCarriesDetails | app.mjs:292 | the system message carries the meeting details and the context verbatim, each right after its label |
| Summary.ContextContent | app.mjs:263-267 | no context file (or an empty path) gives `""`; otherwise what `readContextFile` returns |
| Summary.GenerateSummary | app.mjs:245-314 | a missing system prompt rejects with `System prompt not found`; otherwise the model's reply to the two messages, or `Failed to generate summary` when the call fails |
| Summary.InstructionIsIgnored | app.mjs:245-250 | the instruction has no effect on the summary |
| Summary.ContextReadErrorIsNotFatal | app.mjs:102-106 | whichever reader the extension selects, when it fails its error text is sent as the context, right after the context label in the system message, and the summary succeeds exactly when the completion does |
| Summary.ContextErrorIsContent | app.mjs:263-267 | a context file whose reader fails is sent as `Error reading context file: <message>` |
| Summary.SummaryWithContext | app.mjs:285-305 | whatever the context content, the summary succeeds exactly when the completion of the messages carrying it does |
| Route.Validate | app.mjs:344-357 | a request passes exactly when it has an audio file and a non-empty instruction; otherwise 400 without details: `No audio file uploaded` exactly when the audio is missing, even if the instruction is missing too, and `Instruction is required` when the audio is there |
| Route.ConversionTarget | app.mjs:359-368 | only `audio/x-m4a` and `audio/webm` are converted; with the matching suffix the target ends with `.mp3`; without it the target is the upload's own path |
| Route.CleanupMp3Path | app.mjs:423 | a path ending in `.m4a` or `.webm` gets `.mp3` instead; any other path is unchanged |
| Route.CleanupPaths | app.mjs:411-425 | the audio upload, the context upload and, for the converted types, the MP3 path are listed; nothing else is, so the MP3 path of an upload that was not converted is never listed; no empty path is listed |
| Route.NonEmpty | app.mjs:400-401 | `if (filePath)`: exactly the non-empty paths remain |
| Route.ConversionAndCleanupAgree | app.mjs:359-368 | with the suffix matching the MIME type, the cleanup deletes exactly the MP3 the conversion wrote, which is not the upload itself |
| Route.MismatchedSuffixConvertsOntoUpload | app.mjs:361-363 | an `audio/x-m4a` upload named `.webm` is converted onto its own path, while the cleanup names a different `.mp3` |
| Route.UpperCaseSuffixNotRewritten | app.mjs:362 | the rewrite is case-sensitive: `.M4A` is left unchanged by both rewrites |
| Route.UnconvertedTypesKeepPath | app.mjs:359-368 | other audio types are not converted and only the upload itself is cleaned up |
| Route.ErrorHandlerResponse | app.mjs:431-443 | 400 `File upload error` exactly for a multer error, otherwise 500 `Server error`; the message is the details; an empty message gives `""` for a multer error and `An unexpected error occurred` otherwise |
| Route.Refusal | app.mjs:319-338 | the error that refuses a part: `Too many files` for a part past the second (`limits.files` is 2), then multer's `Unexpected field` when the field check fails, otherwise `Invalid file type` |
| Route.AdmitFrom | app.mjs:319-338 | multer takes the parts in arrival order, each through the file count, its field check and then `fileFilter`: all pass exactly when every part does |
| Route.AdmitParts | app.mjs:319-338 | a multipart request is admitted exactly when every file is on `audio` or `context`, no field carries two files, and `fileFilter` accepts every file; an admitted request has at most two files; otherwise the error is `Too many files`, `Unexpected field` or `Invalid file type` |
| Route.EveryPartAdmitted | app.mjs:334-338 | every part passing both checks is the same as the three conditions of `AdmitParts` |
| Route.DeclaredFieldsFitTheCount | app.mjs:319-338 | files on the two declared fields, none used twice, never exceed the file count of two |
| Route.FirstRefused | app.mjs:334-338 | the first refused part: refused, with every earlier part admitted |
| Route.FirstRefusalWins | app.mjs:334-338 | the request is refused with the error of the first refused part |
| Route.RejectedTypeIsServerError | app.mjs:431-443 | a refused file type on a declared field used for the first time ends as 500 `Server error` with details `Invalid file type`, not as a 400 |
| Route.UnexpectedFieldIsUploadError | app.mjs:334-338 | within the file count, a file on an undeclared field, or a second file on `audio` or `context`, is refused by multer before `fileFilter` and ends as 400 `File upload error` with details `Unexpected field` |
| Route.ThirdFileIsUploadError | app.mjs:319-323 | a third file part after two admitted ones is refused by the file count, before the field check and `fileFilter`, and ends as 400 `File upload error` with details `Too many files` |
| Route.SecondContextFileIsOneTooMany | app.mjs:319-323 | a recording, a document and a second document are refused with `Too many files`, not `Unexpected field` |
| Route.SecondAudioFileRefused | app.mjs:335-336 | two recordings on `audio` are refused with `Unexpected field`, though both types are allowed |
| Route.UndeclaredFieldRefused | app.mjs:334-338 | a file on a field other than `audio` or `context` is refused with `Unexpected field`, whatever its type |
| Route.SummaryPath | app.mjs:382 | the saved summary is a `.txt` file |
| Route.SummaryPathsDistinct | app.mjs:382 | summaries saved at different milliseconds get different paths |
| Route.Basename | app.js:356-361 | `path.basename`: no `/` in the result, which is the part of the path after its last `/` |
| Route.Process | app.mjs:359-397 | the `try` block answers 200 or 500; a 200 leaves the summary file on disk; a 500 is `An error occurred during processing` with details |
| Route.Failure | app.mjs:392-397 | the `catch` answer: 500, `An error occurred during processing`, the error's message as details |
| Route.FailureBeforeTranscript | app.mjs:359-374 | the 500's details are the message of the first failing step: the conversion, the probe, or the transcription |
| Route.FailureAfterTranscript | app.mjs:376-383 | after a transcript, the 500's details are the failed summary's message or the failed save's |
| Route.DownloadUrl | app.js:361 | only `app.js` sends it: `/uploads/` followed by the final audio path's basename, the longest `/`-free end of that path |
| Route.ContextPath | app.mjs:377 | `contextFile ? contextFile.path : null` |
| Route.UnlinkAll | app.mjs:411-425 | the deletions in turn: the files only shrink, and only listed paths are removed |
| Route.UnlinkAllRemoves | app.mjs:398-425 | the cleanup deletes exactly the listed paths whose deletion succeeds |
| Route.Handled | app.mjs:343-397 | the answer is 400 exactly when validation fails, and then nothing was written |
| Route.Upload | app.mjs:332-428 | the route answers 200, 400 or 500, and 400 exactly when validation fails |
| Route.UploadSucceedsIff | app.mjs:359-391 | 200 exactly when validation passes and the conversion, probe, transcription, summary and save all succeed; the body then carries the model's reply to that transcript and the saved path |
| Route.CleanupRemovesUploads | app.mjs:398-425 | whatever the answer, the cleanup removes every listed path whose deletion succeeds and nothing else |
| Route.RejectedRequestOnlyCleansUp | app.mjs:344-357 | a request refused with 400 writes nothing; only its uploads are deleted |
| Route.ConvertedFileRemoved | app.mjs:412-425 | with a matching suffix, neither the upload nor the converted MP3 outlives the request when their deletions succeed |
| Route.SummaryFileKept | app.mjs:381-383 | a successful answer leaves its summary file on disk when the cleanup list does not name it |
| Route.CleanUp | app.mjs:412-425 | the `cleanupFile` calls delete the listed paths in turn, ignoring failures |
| Route.HandleUpload | app.mjs:332-428 | the handler's answer and the files it leaves are those of `Upload` |

## Left out

- ffmpeg and ffprobe: the conversion, the chunk extraction and the probe
  are outcomes passed in. The model starts from the floored whole number
  of seconds, so a fractional last second of a recording is never
  transcribed.
- Whisper and the chat completion are outcomes passed in: one per chunk
  index for Whisper, a function of the two messages for the chat model.
  `completion.choices[0].message.content` being absent is not modelled.
- `p-limit(10)`: the bound of ten tasks in flight is not modelled. The
  fan-out runs every task in chunk order. All tasks still run after one
  fails, as with `Promise.all`, which does not cancel the others.
- ChunkPipeline.JobResult: when several tasks fail, the model reports the
  error of the failing task with the lowest index. The server reports
  whichever rejection happens first in time.
- ChunkPipeline.FilesAfterChunk: a failed extraction is taken to leave no
  chunk file. ffmpeg may leave a partial one.
- mammoth, pdf-parse, `readFileSync`, `JSON.parse` and `path.extname` are
  inputs. The parsed meeting details are taken as their rendered text
  (`undefined` for a missing field). A parse that throws, or a parsed
  value whose fields cannot be read, is `None`.
- Summary.ContextKindOf: `toLowerCase` is modelled on ASCII letters only.
  No non-ASCII letter lowers onto the letters of `.docx` or `.pdf`.
- Strings are sequences of Unicode code points. JavaScript strings are
  UTF-16 code units, so a character outside the Basic Multilingual Plane
  becomes two `_` in the stored name but one in `Uploads.Sanitize`.
- Route.CleanUp: the source starts the `cleanupFile` deletions without
  awaiting them, after the answer is sent. The model runs them to
  completion, in order, before the handler returns.
- multer's size limit (200 MB) and the creation of the upload directory
  are not modelled. Its file count (`limits.files`), field and
  `maxCount` checks are modelled, in `Route.AdmitParts`. The 400 a size
  error leads to is `Route.ErrorHandlerResponse`, and the request that
  reaches the route is taken as given. The texts `Too many files` and
  `Unexpected field` are multer's own messages for `LIMIT_FILE_COUNT`
  and `LIMIT_UNEXPECTED_FILE`, and the order of the checks (the count
  before the field, the field before `fileFilter`) is multer's and
  busboy's; their source is not part of this model.
- Route.Basename: only paths that do not end with `/` are meant. Upload
  paths never do. `path.basename` of a path with a trailing `/` returns
  the last segment instead of `""`.
- Route.SummaryPath: `path.join` is modelled as concatenation with `/`,
  and `__dirname` is taken to be a normalised path without a trailing
  `/`.
- `Date.now()` is a parameter.
- Logging, dotenv, express routing and static files, the index page and
  the serverless export are not modelled. `app.js` exports with an
  undeclared `serverless`.
- public/script.js, project/audiorecorder.js and tempCodeRunnerFile.js
  are not part of this model. They are browser code and a scratch
  fragment.
