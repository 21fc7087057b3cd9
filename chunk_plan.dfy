/** The chunk planner of `chunkAndTranscribeAudioParallel`: the floored
    total duration of the audio, in whole seconds, is cut into
    five-minute windows, each described by its index, its start and
    its length. */
module ChunkPlan {

  /** `chunkDurationSec`: the window length in seconds. */
  const ChunkDurationSec: nat := 300

  /** One planned window: `{ chunkIndex, startTime, duration }`. */
  datatype Chunk = Chunk(chunkIndex: nat, startTime: nat, duration: nat)

  function Min(a: int, b: int): int { if a <= b then a else b }

  /** `Math.ceil(totalDuration / chunkDurationSec)` for a non-negative
      integer duration. */
  function NumChunks(totalDuration: nat): (n: nat)
    ensures n * ChunkDurationSec >= totalDuration
    ensures n > 0 ==> (n - 1) * ChunkDurationSec < totalDuration
  {
    (totalDuration + ChunkDurationSec - 1) / ChunkDurationSec
  }

  /** The plan the loop builds: window `i` starts at `i * 300` and
      lasts `min(300, totalDuration - startTime)` seconds. */
  function Plan(totalDuration: nat): (chunks: seq<Chunk>)
    ensures |chunks| == NumChunks(totalDuration)
    ensures forall i :: 0 <= i < |chunks| ==> chunks[i].chunkIndex == i
    ensures forall i :: 0 <= i < |chunks| ==> 1 <= chunks[i].duration <= ChunkDurationSec
    ensures forall i :: 0 <= i < |chunks| - 1 ==> chunks[i].duration == ChunkDurationSec
    ensures chunks != [] ==> chunks[0].startTime == 0
    ensures forall i :: 0 <= i < |chunks| - 1 ==>
      chunks[i + 1].startTime == chunks[i].startTime + chunks[i].duration
    ensures chunks != [] ==>
      chunks[|chunks| - 1].startTime + chunks[|chunks| - 1].duration == totalDuration
  {
    seq(NumChunks(totalDuration), i requires 0 <= i < NumChunks(totalDuration) =>
      Chunk(i, i * ChunkDurationSec,
            Min(ChunkDurationSec, totalDuration - i * ChunkDurationSec)))
  }

  /** The loop of `chunkAndTranscribeAudioParallel` that pushes one
      descriptor per window onto `chunks`. */
  method PlanChunks(totalDuration: nat) returns (chunks: seq<Chunk>)
    ensures chunks == Plan(totalDuration)
  {
    var numChunks := (totalDuration + ChunkDurationSec - 1) / ChunkDurationSec;
    chunks := [];
    var i := 0;
    while i < numChunks
      invariant 0 <= i <= numChunks
      invariant chunks == Plan(totalDuration)[..i]
    {
      var startTime := i * ChunkDurationSec;
      var thisChunkDuration := Min(ChunkDurationSec, totalDuration - startTime);
      chunks := chunks + [Chunk(i, startTime, thisChunkDuration)];
      i := i + 1;
    }
  }

  /** Total length of the windows of a plan. */
  function SumDurations(chunks: seq<Chunk>): nat
  {
    if chunks == [] then 0
    else SumDurations(chunks[..|chunks| - 1]) + chunks[|chunks| - 1].duration
  }

  lemma {:induction false} PlanPrefixSum(totalDuration: nat, k: nat)
    requires k <= NumChunks(totalDuration)
    ensures SumDurations(Plan(totalDuration)[..k]) == Min(totalDuration, k * ChunkDurationSec)
  {
    var p := Plan(totalDuration);
    if k > 0 {
      PlanPrefixSum(totalDuration, k - 1);
      assert p[..k][..k - 1] == p[..k - 1];
    }
  }

  /** The windows cover the floored duration exactly: their lengths
      add up to `totalDuration`. */
  lemma PlanCoversTotal(totalDuration: nat)
    ensures SumDurations(Plan(totalDuration)) == totalDuration
  {
    var p := Plan(totalDuration);
    PlanPrefixSum(totalDuration, |p|);
    assert p[..|p|] == p;
  }

  /** Starts strictly increase, so no two windows overlap. */
  lemma PlanStartsIncrease(totalDuration: nat, i: nat, j: nat)
    requires i < j < NumChunks(totalDuration)
    ensures Plan(totalDuration)[i].startTime + Plan(totalDuration)[i].duration
            <= Plan(totalDuration)[j].startTime
  {
  }

  /** A silent file (zero whole seconds) yields no windows. */
  lemma EmptyAudioHasNoChunks()
    ensures Plan(0) == []
  {
  }

  /** 905 seconds give three full windows and one of five seconds. */
  lemma PlanOf905Seconds()
    ensures Plan(905) == [Chunk(0, 0, 300), Chunk(1, 300, 300), Chunk(2, 600, 300), Chunk(3, 900, 5)]
  {
    var p := Plan(905);
    assert |p| == 4;
  }
}
