/** The per-chunk worker and the fan-out of
    `chunkAndTranscribeAudioParallel`, taken sequentially in chunk
    order. ffmpeg's `createChunk`, Whisper's transcription and
    `fs.promises.unlink` are oracles: for every chunk index a
    `ChunkOracle` says how each of the three calls ends. The temporary
    directory is a `Storage` object whose set of file paths the calls
    change. */
module ChunkPipeline {
  import opened Outcomes
  import opened JsStrings
  import opened ChunkPlan
  import opened Transcript

  /** `${filePath}_chunk_${chunk.chunkIndex}.mp3` */
  function ChunkPath(filePath: string, chunkIndex: nat): (p: string)
    ensures |p| > |filePath| && p[..|filePath|] == filePath
    ensures EndsWith(p, ".mp3")
  {
    filePath + "_chunk_" + DecimalString(chunkIndex) + ".mp3"
  }

  /** Different chunks of one file get different temporary paths. */
  lemma ChunkPathsDistinct(filePath: string, i: nat, j: nat)
    requires i != j
    ensures ChunkPath(filePath, i) != ChunkPath(filePath, j)
  {
    var di, dj := DecimalString(i), DecimalString(j);
    if ChunkPath(filePath, i) == ChunkPath(filePath, j) {
      var prefix := filePath + "_chunk_";
      var pi, pj := ChunkPath(filePath, i), ChunkPath(filePath, j);
      assert |di| == |dj|;
      assert pi[|prefix|..|prefix| + |di|] == di;
      assert pj[|prefix|..|prefix| + |dj|] == dj;
      DecimalInjective(i, j);
    }
  }

  /** How the three external calls of one chunk's task end. */
  datatype ChunkOracle = ChunkOracle(extract: Result<()>, transcribe: Result<string>, unlink: Result<()>)

  /** The directory the chunk files are written to. */
  class Storage {
    var files: set<string>

    constructor (files: set<string>)
      ensures this.files == files
    {
      this.files := files;
    }

    /** A producer that writes `path` — ffmpeg's `.save(path)` in
        `createChunk` and `convertToMp3`, or `fs.writeFileSync(path, …)` —
        leaves the file there when it succeeds. */
    method Write(path: string, outcome: Result<()>) returns (r: Result<()>)
      modifies this
      ensures r == outcome
      ensures files == if outcome.Ok? then old(files) + {path} else old(files)
    {
      if outcome.Ok? {
        files := files + {path};
      }
      r := outcome;
    }

    /** `fs.promises.unlink(path)`: removes the file when it succeeds. */
    method Unlink(path: string, outcome: Result<()>) returns (r: Result<()>)
      modifies this
      ensures r == outcome
      ensures files == if outcome.Ok? then old(files) - {path} else old(files)
    {
      if outcome.Ok? {
        files := files - {path};
      }
      r := outcome;
    }
  }

  /** What one chunk's task settles with: its `{ index, text }`, or the
      error of the first call that failed. Deletion plays no part. */
  function ChunkResult(chunk: Chunk, o: ChunkOracle): (r: Result<PartialTranscript>)
    ensures r.Ok? <==> o.extract.Ok? && o.transcribe.Ok?
    ensures r.Ok? ==> r.value.index == chunk.chunkIndex && r.value.text == o.transcribe.value
    ensures r.Err? && o.extract.Err? ==> r.message == o.extract.message
    ensures r.Err? && o.extract.Ok? ==> r.message == o.transcribe.message
  {
    if o.extract.Err? then Err(o.extract.message)
    else if o.transcribe.Err? then Err(o.transcribe.message)
    else Ok(PartialTranscript(chunk.chunkIndex, o.transcribe.value))
  }

  /** The chunk file survives the chunk task: it was written, and either the
      transcription threw before the unlink or the unlink failed. */
  predicate LeavesChunkFile(o: ChunkOracle) {
    o.extract.Ok? && (o.transcribe.Err? || o.unlink.Err?)
  }

  /** The chunk file was written and deleted again. */
  predicate RemovesChunkFile(o: ChunkOracle) {
    o.extract.Ok? && o.transcribe.Ok? && o.unlink.Ok?
  }

  /** The directory after one chunk's task. */
  function FilesAfterChunk(files: set<string>, filePath: string, chunk: Chunk, o: ChunkOracle): (after: set<string>)
    ensures LeavesChunkFile(o) ==> after == files + {ChunkPath(filePath, chunk.chunkIndex)}
    ensures RemovesChunkFile(o) ==> after == files - {ChunkPath(filePath, chunk.chunkIndex)}
    ensures !LeavesChunkFile(o) && !RemovesChunkFile(o) ==> after == files
  {
    var path := ChunkPath(filePath, chunk.chunkIndex);
    var written := if o.extract.Ok? then files + {path} else files;
    if o.extract.Ok? && o.transcribe.Ok? && o.unlink.Ok? then written - {path} else written
  }

  /** A failed unlink is swallowed: the chunk task settles exactly as if the
      deletion had succeeded, and only the chunk file stays behind. */
  lemma UnlinkFailureIsSwallowed(filePath: string, chunk: Chunk, o: ChunkOracle, files: set<string>)
    requires o.extract.Ok? && o.transcribe.Ok? && o.unlink.Err?
    ensures ChunkResult(chunk, o) == ChunkResult(chunk, o.(unlink := Ok(())))
    ensures ChunkResult(chunk, o) == Ok(PartialTranscript(chunk.chunkIndex, o.transcribe.value))
    ensures FilesAfterChunk(files, filePath, chunk, o)
         == FilesAfterChunk(files, filePath, chunk, o.(unlink := Ok(()))) + {ChunkPath(filePath, chunk.chunkIndex)}
  {
  }

  /** A transcription error rejects the chunk task and the chunk file that was
      extracted stays behind, whatever the unlink would have done. */
  lemma TranscriptionErrorKeepsChunkFile(filePath: string, chunk: Chunk, o: ChunkOracle, files: set<string>)
    requires o.extract.Ok? && o.transcribe.Err?
    ensures ChunkResult(chunk, o) == Err(o.transcribe.message)
    ensures ChunkPath(filePath, chunk.chunkIndex) in FilesAfterChunk(files, filePath, chunk, o)
  {
  }

  /** The chunk task `limit` runs for one chunk: build the chunk path,
      extract, transcribe, unlink, return `{ index, text }`. A
      transcription error is re-thrown before the unlink is reached (no
      `finally`); an unlink error is logged and swallowed. */
  method ChunkTask(storage: Storage, filePath: string, chunk: Chunk, o: ChunkOracle)
    returns (r: Result<PartialTranscript>)
    modifies storage
    ensures r == ChunkResult(chunk, o)
    ensures storage.files == FilesAfterChunk(old(storage.files), filePath, chunk, o)
  {
    var chunkFilePath := ChunkPath(filePath, chunk.chunkIndex);
    var created := storage.Write(chunkFilePath, o.extract);
    if created.Err? {
      return Err(created.message);
    }
    var transcript := o.transcribe;
    if transcript.Err? {
      return Err(transcript.message);
    }
    var deleted := storage.Unlink(chunkFilePath, o.unlink);
    r := Ok(PartialTranscript(chunk.chunkIndex, transcript.value));
  }

  /** `Promise.all(chunks.map(task))` taken in chunk order: the pairs
      in chunk order when every task resolves, otherwise the error of
      the first task that rejects. */
  function JobResult(chunks: seq<Chunk>, oracle: nat -> ChunkOracle): (r: Result<seq<PartialTranscript>>)
    ensures r.Ok? ==> |r.value| == |chunks|
  {
    if chunks == [] then Ok([])
    else
      var last := chunks[|chunks| - 1];
      var earlier := JobResult(chunks[..|chunks| - 1], oracle);
      var r := ChunkResult(last, oracle(last.chunkIndex));
      if earlier.Err? then earlier
      else if r.Err? then Err(r.message)
      else Ok(earlier.value + [r.value])
  }

  /** The directory after every chunk task has run. Only chunk files
      of the job are added or removed. */
  function FilesAfterJob(files: set<string>, filePath: string, chunks: seq<Chunk>, oracle: nat -> ChunkOracle)
    : (after: set<string>)
    ensures forall p :: (p in after) != (p in files) ==> p in ChunkPaths(filePath, chunks)
  {
    if chunks == [] then files
    else
      var init, last := chunks[..|chunks| - 1], chunks[|chunks| - 1];
      assert ChunkPaths(filePath, init) <= ChunkPaths(filePath, chunks) by {
        assert forall i :: 0 <= i < |init| ==> init[i] == chunks[i];
      }
      assert ChunkPath(filePath, last.chunkIndex) in ChunkPaths(filePath, chunks);
      FilesAfterChunk(FilesAfterJob(files, filePath, init, oracle), filePath, last, oracle(last.chunkIndex))
  }

  /** The temporary paths of the job's chunks. */
  function ChunkPaths(filePath: string, chunks: seq<Chunk>): set<string>
  {
    set i | 0 <= i < |chunks| :: ChunkPath(filePath, chunks[i].chunkIndex)
  }

  /** The job succeeds exactly when every chunk's task does, and then
      holds one pair per chunk, in chunk order, carrying that chunk's
      index and transcribed text. */
  lemma {:induction false} JobSucceedsIffEveryChunk(chunks: seq<Chunk>, oracle: nat -> ChunkOracle)
    ensures JobResult(chunks, oracle).Ok? <==>
      forall i :: 0 <= i < |chunks| ==> ChunkResult(chunks[i], oracle(chunks[i].chunkIndex)).Ok?
    ensures JobResult(chunks, oracle).Ok? ==>
      var pairs := JobResult(chunks, oracle).value;
      |pairs| == |chunks| &&
      forall i :: 0 <= i < |chunks| ==>
        pairs[i] == PartialTranscript(chunks[i].chunkIndex, oracle(chunks[i].chunkIndex).transcribe.value)
  {
    if chunks != [] {
      var init := chunks[..|chunks| - 1];
      JobSucceedsIffEveryChunk(init, oracle);
      assert forall i :: 0 <= i < |init| ==> init[i] == chunks[i];
    }
  }

  /** A failed job reports the error of the first chunk, in chunk
      order, whose task failed; every chunk before it succeeded. */
  lemma {:induction false} JobFailsWithFirstError(chunks: seq<Chunk>, oracle: nat -> ChunkOracle)
    requires JobResult(chunks, oracle).Err?
    ensures exists k :: (0 <= k < |chunks| &&
      ChunkResult(chunks[k], oracle(chunks[k].chunkIndex)).Err? &&
      JobResult(chunks, oracle).message == ChunkResult(chunks[k], oracle(chunks[k].chunkIndex)).message &&
      forall i :: 0 <= i < k ==> ChunkResult(chunks[i], oracle(chunks[i].chunkIndex)).Ok?)
  {
    var init := chunks[..|chunks| - 1];
    assert forall i :: 0 <= i < |init| ==> init[i] == chunks[i];
    if JobResult(init, oracle).Err? {
      JobFailsWithFirstError(init, oracle);
      var k :| 0 <= k < |init| &&
        ChunkResult(init[k], oracle(init[k].chunkIndex)).Err? &&
        JobResult(init, oracle).message == ChunkResult(init[k], oracle(init[k].chunkIndex)).message &&
        forall i :: 0 <= i < k ==> ChunkResult(init[i], oracle(init[i].chunkIndex)).Ok?;
      assert init[k] == chunks[k];
    } else {
      JobSucceedsIffEveryChunk(init, oracle);
      var k := |chunks| - 1;
      assert forall i :: 0 <= i < k ==> ChunkResult(chunks[i], oracle(chunks[i].chunkIndex)).Ok?;
    }
  }

  predicate DistinctChunkIndices(chunks: seq<Chunk>) {
    forall i, j :: 0 <= i < j < |chunks| ==> chunks[i].chunkIndex != chunks[j].chunkIndex
  }

  /** Chunk files that are still on disk after the job. */
  function LeftBehind(filePath: string, chunks: seq<Chunk>, oracle: nat -> ChunkOracle): set<string>
  {
    set i | 0 <= i < |chunks| && LeavesChunkFile(oracle(chunks[i].chunkIndex)) :: ChunkPath(filePath, chunks[i].chunkIndex)
  }

  /** Chunk files that were written and deleted again. */
  function Cleaned(filePath: string, chunks: seq<Chunk>, oracle: nat -> ChunkOracle): set<string>
  {
    set i | 0 <= i < |chunks| && RemovesChunkFile(oracle(chunks[i].chunkIndex)) :: ChunkPath(filePath, chunks[i].chunkIndex)
  }

  lemma CleanedSnoc(filePath: string, chunks: seq<Chunk>, oracle: nat -> ChunkOracle)
    requires chunks != []
    ensures var last := chunks[|chunks| - 1];
      Cleaned(filePath, chunks, oracle)
      == Cleaned(filePath, chunks[..|chunks| - 1], oracle)
         + (if RemovesChunkFile(oracle(last.chunkIndex)) then {ChunkPath(filePath, last.chunkIndex)} else {})
  {
    var init := chunks[..|chunks| - 1];
    assert forall i :: 0 <= i < |init| ==> init[i] == chunks[i];
  }

  lemma LeftBehindSnoc(filePath: string, chunks: seq<Chunk>, oracle: nat -> ChunkOracle)
    requires chunks != []
    ensures var last := chunks[|chunks| - 1];
      LeftBehind(filePath, chunks, oracle)
      == LeftBehind(filePath, chunks[..|chunks| - 1], oracle)
         + (if LeavesChunkFile(oracle(last.chunkIndex)) then {ChunkPath(filePath, last.chunkIndex)} else {})
  {
    var init := chunks[..|chunks| - 1];
    assert forall i :: 0 <= i < |init| ==> init[i] == chunks[i];
  }

  /** A chunk index not used by earlier chunks names a file none of
      them left behind. */
  lemma NotLeftBehindEarlier(filePath: string, chunks: seq<Chunk>, oracle: nat -> ChunkOracle, index: nat)
    requires forall i :: 0 <= i < |chunks| ==> chunks[i].chunkIndex != index
    ensures ChunkPath(filePath, index) !in LeftBehind(filePath, chunks, oracle)
  {
    forall x | x in LeftBehind(filePath, chunks, oracle) ensures x != ChunkPath(filePath, index) {
      var i :| 0 <= i < |chunks| && LeavesChunkFile(oracle(chunks[i].chunkIndex)) && x == ChunkPath(filePath, chunks[i].chunkIndex);
      ChunkPathsDistinct(filePath, chunks[i].chunkIndex, index);
    }
  }

  /** After the job the directory has lost the chunk files that were
      deleted and gained those left behind, whatever the outcome of the
      job: a chunk whose transcription failed keeps its file, and so
      does one whose unlink failed. */
  lemma {:induction false} FilesAfterJobClosedForm(files: set<string>, filePath: string, chunks: seq<Chunk>, oracle: nat -> ChunkOracle)
    requires DistinctChunkIndices(chunks)
    ensures FilesAfterJob(files, filePath, chunks, oracle)
            == (files - Cleaned(filePath, chunks, oracle)) + LeftBehind(filePath, chunks, oracle)
  {
    if chunks != [] {
      var n := |chunks| - 1;
      var init, last := chunks[..n], chunks[n];
      assert DistinctChunkIndices(init) by {
        assert forall i :: 0 <= i < n ==> init[i] == chunks[i];
      }
      FilesAfterJobClosedForm(files, filePath, init, oracle);
      CleanedSnoc(filePath, chunks, oracle);
      LeftBehindSnoc(filePath, chunks, oracle);
      NotLeftBehindEarlier(filePath, init, oracle, last.chunkIndex);
    }
  }

  /** The fan-out: every chunk's task runs (a rejection does not stop
      the chunk tasks `p-limit` has queued), one after another in chunk order;
      the job settles like `Promise.all`. */
  method RunChunkTasks(storage: Storage, filePath: string, chunks: seq<Chunk>, oracle: nat -> ChunkOracle)
    returns (r: Result<seq<PartialTranscript>>)
    modifies storage
    ensures r == JobResult(chunks, oracle)
    ensures storage.files == FilesAfterJob(old(storage.files), filePath, chunks, oracle)
  {
    r := Ok([]);
    var k := 0;
    while k < |chunks|
      invariant 0 <= k <= |chunks|
      invariant r == JobResult(chunks[..k], oracle)
      invariant storage.files == FilesAfterJob(old(storage.files), filePath, chunks[..k], oracle)
    {
      var chunk := chunks[k];
      var settled := ChunkTask(storage, filePath, chunk, oracle(chunk.chunkIndex));
      assert chunks[..k + 1][..k] == chunks[..k];
      if r.Ok? {
        r := if settled.Err? then Err(settled.message) else Ok(r.value + [settled.value]);
      }
      k := k + 1;
    }
    assert chunks[..k] == chunks;
  }

  /** The transcript of the whole file: the texts Whisper returned for
      chunks 0 to n - 1, in that order, joined by newlines and trimmed;
      or the first error. */
  function LongAudioTranscript(totalDuration: nat, oracle: nat -> ChunkOracle): (r: Result<string>)
    ensures r.Ok? && r.value != [] ==> !IsWhitespace(r.value[0]) && !IsWhitespace(r.value[|r.value| - 1])
  {
    var job := JobResult(Plan(totalDuration), oracle);
    if job.Err? then Err(job.message)
    else
      var t := TranscriptOf(job.value);
      assert t != [] ==> !IsWhitespace(t[0]) && !IsWhitespace(t[|t| - 1]);
      Ok(t)
  }

  /** The texts Whisper returned for chunks 0 to n - 1, in index order
      (a chunk whose transcription failed stands as ""). */
  function ChunkTexts(n: nat, oracle: nat -> ChunkOracle): (texts: seq<string>)
    ensures |texts| == n
  {
    seq(n, i requires 0 <= i < n =>
      if oracle(i).transcribe.Ok? then oracle(i).transcribe.value else "")
  }

  /** The job fails exactly when some chunk's extraction or
      transcription fails. */
  lemma LongAudioTranscriptFailsIff(totalDuration: nat, oracle: nat -> ChunkOracle)
    ensures LongAudioTranscript(totalDuration, oracle).Err? <==>
      exists i :: 0 <= i < NumChunks(totalDuration) && (oracle(i).extract.Err? || oracle(i).transcribe.Err?)
  {
    var chunks := Plan(totalDuration);
    JobSucceedsIffEveryChunk(chunks, oracle);
    if JobResult(chunks, oracle).Err? {
      var k :| 0 <= k < |chunks| && !ChunkResult(chunks[k], oracle(chunks[k].chunkIndex)).Ok?;
      assert chunks[k].chunkIndex == k;
    } else {
      forall i | 0 <= i < |chunks|
        ensures oracle(i).extract.Ok? && oracle(i).transcribe.Ok?
      {
        assert ChunkResult(chunks[i], oracle(chunks[i].chunkIndex)).Ok?;
      }
    }
  }

  /** End to end: a successful job's transcript is the chunk texts in
      index order, newline-joined and trimmed, however the chunks were
      scheduled. */
  lemma LongAudioTranscriptIsOrderedJoin(totalDuration: nat, oracle: nat -> ChunkOracle)
    requires LongAudioTranscript(totalDuration, oracle).Ok?
    ensures LongAudioTranscript(totalDuration, oracle).value
            == Trim(Join(ChunkTexts(NumChunks(totalDuration), oracle), "\n"))
  {
    var chunks := Plan(totalDuration);
    JobSucceedsIffEveryChunk(chunks, oracle);
    var pairs := JobResult(chunks, oracle).value;
    TranscriptOfOrdered(pairs);
    assert Texts(pairs) == ChunkTexts(NumChunks(totalDuration), oracle);
  }

  /** A file shorter than one second is transcribed as "" without any
      chunk task. */
  lemma SilentFileGivesEmptyTranscript(oracle: nat -> ChunkOracle)
    ensures LongAudioTranscript(0, oracle) == Ok("")
  {
  }

  /** `chunkAndTranscribeAudioParallel(filePath)`, from the ffprobe
      result on: a probe error rejects the whole job before any chunk
      work; otherwise plan, run every chunk's task, and assemble. */
  method ChunkAndTranscribe(storage: Storage, filePath: string, probe: Result<nat>, oracle: nat -> ChunkOracle)
    returns (r: Result<string>)
    modifies storage
    ensures probe.Err? ==> r == Err(probe.message) && storage.files == old(storage.files)
    ensures probe.Ok? ==> r == LongAudioTranscript(probe.value, oracle)
    ensures probe.Ok? ==> storage.files == FilesAfterJob(old(storage.files), filePath, Plan(probe.value), oracle)
  {
    if probe.Err? {
      return Err(probe.message);
    }
    var totalDuration := probe.value;
    var chunks := PlanChunks(totalDuration);
    var settled := RunChunkTasks(storage, filePath, chunks, oracle);
    if settled.Err? {
      return Err(settled.message);
    }
    var pairs := settled.value;
    JobSucceedsIffEveryChunk(chunks, oracle);
    var partialTranscripts := new PartialTranscript[|pairs|](i requires 0 <= i < |pairs| => pairs[i]);
    assert partialTranscripts[..] == pairs;
    var transcript := AssembleTranscript(partialTranscripts);
    r := Ok(transcript);
  }
}
