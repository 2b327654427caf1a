/**
 * The retroactive chunk replacement of hlsfunc/hlsFunctions.go: re-fetch an
 * earlier chunk at a new quality and shift the logged buffer levels of the
 * chunks after it by what the re-fetch changed.
 */
module HlsFunctions {
  import opened Wrappers
  import opened Debug
  import GoStrings
  import MpdParsing
  import UrlParsing

  /** A per-segment log map that the player and the replacement update in place. */
  class SegmentLog {
    var entries: map<int, SegPrintLogInformation>

    constructor (initial: map<int, SegPrintLogInformation>)
      ensures entries == initial
    {
      entries := initial;
    }
  }

  /** The integers strictly between lo and hi. */
  function Between(lo: int, hi: int): (r: set<int>)
    ensures forall a :: a in r <==> lo < a < hi
    decreases hi - lo
  {
    if hi <= lo + 1 then {} else Between(lo, hi - 1) + {hi - 1}
  }

  /**
   * The log after the buffer levels of keys chunkReplace+1 .. upto−1 have
   * been lowered by bufferDifference; a missing key in that range is the zero
   * record lowered by it.
   */
  function Shifted(m: map<int, SegPrintLogInformation>, upto: int, chunkReplace: int, bufferDifference: int)
    : (r: map<int, SegPrintLogInformation>)
    ensures forall a :: a in r <==> a in m || chunkReplace < a < upto
  {
    map a | a in m.Keys + Between(chunkReplace, upto) ::
      if chunkReplace < a < upto then Get(m, a).(bufferLevel := Get(m, a).bufferLevel - bufferDifference) else m[a]
  }

  /** ChangeBufferLevels: its loop rewrites the entries of the range one key at a time. */
  method ChangeBufferLevels(log: SegmentLog, segmentNumber: int, chunkReplace: int, bufferDifference: int)
    returns (same: SegmentLog)
    modifies log
    ensures same == log
    ensures log.entries == Shifted(old(log.entries), segmentNumber, chunkReplace, bufferDifference)
  {
    ghost var start := log.entries;
    var a := chunkReplace + 1;
    while a < segmentNumber
      invariant chunkReplace + 1 <= a
      invariant a <= segmentNumber || a == chunkReplace + 1
      invariant log.entries == Shifted(start, a, chunkReplace, bufferDifference)
      decreases segmentNumber - a
    {
      var localMap := Get(log.entries, a);
      localMap := localMap.(bufferLevel := Get(log.entries, a).bufferLevel - bufferDifference);
      log.entries := log.entries[a := localMap];
      a := a + 1;
    }
    assert log.entries == Shifted(start, segmentNumber, chunkReplace, bufferDifference);
    return log;
  }

  /**
   * Only the buffer level of keys strictly between chunkReplace and
   * segmentNumber changes, by exactly −bufferDifference; every other field
   * and every other key is untouched.
   */
  lemma ShiftedEntries(m: map<int, SegPrintLogInformation>, segmentNumber: int, chunkReplace: int,
                       bufferDifference: int, a: int)
    ensures var r := Shifted(m, segmentNumber, chunkReplace, bufferDifference);
      (chunkReplace < a < segmentNumber ==>
         Get(r, a).bufferLevel == Get(m, a).bufferLevel - bufferDifference &&
         Get(r, a).(bufferLevel := 0) == Get(m, a).(bufferLevel := 0)) &&
      (!(chunkReplace < a < segmentNumber) ==> Get(r, a) == Get(m, a) && (a in r <==> a in m))
  {
  }

  /** Nothing changes when segmentNumber <= chunkReplace + 1. */
  lemma EmptyRangeChangesNothing(m: map<int, SegPrintLogInformation>, segmentNumber: int, chunkReplace: int,
                                 bufferDifference: int)
    requires segmentNumber <= chunkReplace + 1
    ensures Shifted(m, segmentNumber, chunkReplace, bufferDifference) == m
  {
  }

  /** A missing key in the range becomes a zero record with buffer level −bufferDifference. */
  lemma MissingKeyInserted(m: map<int, SegPrintLogInformation>, segmentNumber: int, chunkReplace: int,
                           bufferDifference: int, a: int)
    requires chunkReplace < a < segmentNumber && a !in m
    ensures Shifted(m, segmentNumber, chunkReplace, bufferDifference)[a]
         == ZeroLog.(bufferLevel := -bufferDifference)
  {
  }

  /** Shifting by d and then by −d restores a log whose range is fully present. */
  lemma ShiftBack(m: map<int, SegPrintLogInformation>, segmentNumber: int, chunkReplace: int, d: int)
    requires forall a :: chunkReplace < a < segmentNumber ==> a in m
    ensures Shifted(Shifted(m, segmentNumber, chunkReplace, d), segmentNumber, chunkReplace, -d) == m
  {
    var r := Shifted(Shifted(m, segmentNumber, chunkReplace, d), segmentNumber, chunkReplace, -d);
    assert forall a :: a in r <==> a in m;
    forall a | a in m
      ensures r[a] == m[a]
    {
    }
  }

  // ---------------------------------------------------------------- GetHlsSegment

  /** The arguments GetHlsSegment hands to the nested streaming call. */
  datatype ReplayRequest = ReplayRequest(
    segmentNumber: int,
    currentURL: string,
    initBuffer: int,
    isByteRangeMPD: bool,
    oldMPDIndex: int,
    hls: string,
    hlsBool: bool,
    streamDuration: int,
    bufferLevel: int,
    segmentDurationTotal: int)

  /**
   * The re-fetch of chunk c: initial buffer 0 and HLS off; buffer and
   * position restored from chunk c − 1; a stream duration that ends one
   * segment of chunk c later. The MPD is byte-range when the base URL of the
   * first representation of its adaptation set 0 differs from
   * `repRateBaseURL`. The URL list, the MPD list and that representation must
   * exist.
   */
  function ReplayArguments(m: map<int, SegPrintLogInformation>, hlsChunkNumber: int, urlInput: seq<string>,
                           mpdList: seq<MpdParsing.MPD>, repRateBaseURL: string): (r: Result<ReplayRequest>)
    ensures var i := Get(m, hlsChunkNumber).mpdIndex;
      r.Ok? <==> 0 <= i < |urlInput| && i < |mpdList| && UrlParsing.GetRepresentationBaseURL(mpdList[i], 0).Ok?
    ensures var i := Get(m, hlsChunkNumber).mpdIndex;
      r.Ok? ==> r.value.isByteRangeMPD == (UrlParsing.GetRepresentationBaseURL(mpdList[i], 0).value != repRateBaseURL)
    ensures r.Ok? ==>
      r.value.initBuffer == 0 && r.value.hls == "off" && !r.value.hlsBool &&
      r.value.bufferLevel == Get(m, hlsChunkNumber - 1).bufferLevel &&
      r.value.segmentDurationTotal == Get(m, hlsChunkNumber - 1).playStartPosition &&
      r.value.streamDuration == r.value.segmentDurationTotal + Get(m, hlsChunkNumber).segmentDuration * 1000 &&
      r.value.segmentNumber == hlsChunkNumber &&
      r.value.oldMPDIndex == Get(m, hlsChunkNumber).mpdIndex
  {
    var previousChunk := Get(m, hlsChunkNumber);
    if !(0 <= previousChunk.mpdIndex < |urlInput|) then Err(IndexOutOfRange)
    else if previousChunk.mpdIndex >= |mpdList| then Err(IndexOutOfRange)
    else match UrlParsing.GetRepresentationBaseURL(mpdList[previousChunk.mpdIndex], 0)
      case Err(f) => Err(f)
      case Ok(repBaseURL) =>
        var oldSegmentDuration := Get(m, hlsChunkNumber - 1).playStartPosition;
        Ok(ReplayRequest(hlsChunkNumber, GoStrings.TrimSpace(urlInput[previousChunk.mpdIndex]), 0,
                         repBaseURL != repRateBaseURL, previousChunk.mpdIndex, "off", false,
                         oldSegmentDuration + previousChunk.segmentDuration * 1000,
                         Get(m, hlsChunkNumber - 1).bufferLevel, oldSegmentDuration))
  }

  /**
   * The package variables of player/player.go that every streamLoop
   * iteration shares, the nested one of a replacement included: the
   * wait-to-play counter, the last stall, the play position and the two QoE
   * counts.
   */
  datatype PlayerGlobals = PlayerGlobals(waitToPlayCounter: int, stallTime: int, playPosition: int,
                                         nStalls: int, nSwitches: int)

  /** What the nested streaming call leaves: the shared variables and the log. */
  datatype ReplayResult = ReplayResult(globals: PlayerGlobals, log: map<int, SegPrintLogInformation>)

  /**
   * The nested streaming call: given its arguments, the shared variables and
   * the log, what it leaves (it writes the re-fetched chunk into the log in
   * place and runs the playout code on the shared variables).
   */
  type Replay = (ReplayRequest, PlayerGlobals, map<int, SegPrintLogInformation>) -> ReplayResult

  /** What GetHlsSegment hands back besides the log. */
  datatype HlsOutcome = HlsOutcome(nextSegmentNumber: int, bufferDifference: int, thisRunTimeVal: int,
                                   globals: PlayerGlobals)

  /**
   * GetHlsSegment. The nested streaming call is `replay`; `globals` are the
   * shared variables it starts from and the outcome carries those it leaves.
   * `elapsedMs` is the time since `nextRunTime`.
   */
  method GetHlsSegment(log: SegmentLog, hlsChunkNumber: int, urlInput: seq<string>,
                       mpdList: seq<MpdParsing.MPD>, repRateBaseURL: string, nextSegmentNumber: int, elapsedMs: int,
                       globals: PlayerGlobals, replay: Replay)
    returns (r: Result<HlsOutcome>)
    modifies log
    ensures var args := ReplayArguments(old(log.entries), hlsChunkNumber, urlInput, mpdList, repRateBaseURL);
      if args.Err? then r == Err(args.failure) && log.entries == old(log.entries)
      else
        var after := replay(args.value, globals, old(log.entries));
        log.entries == after.log &&
        r == Ok(HlsOutcome(nextSegmentNumber,
                           Get(old(log.entries), hlsChunkNumber).bufferLevel - Get(after.log, hlsChunkNumber).bufferLevel,
                           elapsedMs, after.globals))
  {
    var previousChunk := Get(log.entries, hlsChunkNumber);
    var oldBuffer := Get(log.entries, hlsChunkNumber - 1).bufferLevel;
    var currentBuffer := Get(log.entries, hlsChunkNumber).bufferLevel;
    var oldSegmentDuration := Get(log.entries, hlsChunkNumber - 1).playStartPosition;
    if !(0 <= previousChunk.mpdIndex < |urlInput|) {
      return Err(IndexOutOfRange);
    }
    var currentURL := GoStrings.TrimSpace(urlInput[previousChunk.mpdIndex]);
    if previousChunk.mpdIndex >= |mpdList| {
      return Err(IndexOutOfRange);
    }
    var repBaseURL := UrlParsing.GetRepresentationBaseURL(mpdList[previousChunk.mpdIndex], 0);
    if repBaseURL.Err? {
      return Err(repBaseURL.failure);
    }
    var isByteRangeMPD := false;
    if repBaseURL.value != repRateBaseURL {
      isByteRangeMPD := true;
    }
    var newStreamduration := oldSegmentDuration + previousChunk.segmentDuration * 1000;
    var args := ReplayRequest(hlsChunkNumber, currentURL, 0, isByteRangeMPD, previousChunk.mpdIndex, "off", false,
                              newStreamduration, oldBuffer, oldSegmentDuration);
    var after := replay(args, globals, log.entries);
    log.entries := after.log;
    var newBuffer := Get(log.entries, hlsChunkNumber).bufferLevel;
    var bufferDifference := currentBuffer - newBuffer;
    return Ok(HlsOutcome(nextSegmentNumber, bufferDifference, elapsedMs, after.globals));
  }

  /**
   * After a replacement, shifting the later chunks by the buffer difference
   * moves each of their logged levels by exactly what the re-fetch changed at
   * the replaced chunk; so a later chunk the re-fetch left alone keeps the
   * distance to the replaced chunk it had before the re-fetch.
   */
  lemma ReplacementShift(before: map<int, SegPrintLogInformation>, after: map<int, SegPrintLogInformation>,
                         chunk: int, segmentNumber: int, a: int)
    requires chunk < a < segmentNumber
    ensures var d := Get(before, chunk).bufferLevel - Get(after, chunk).bufferLevel;
      Get(Shifted(after, segmentNumber, chunk, d), a).bufferLevel - Get(after, a).bufferLevel
        == Get(after, chunk).bufferLevel - Get(before, chunk).bufferLevel
    ensures var d := Get(before, chunk).bufferLevel - Get(after, chunk).bufferLevel;
      Get(after, a).bufferLevel == Get(before, a).bufferLevel ==>
        Get(Shifted(after, segmentNumber, chunk, d), a).bufferLevel - Get(after, chunk).bufferLevel
          == Get(before, a).bufferLevel - Get(before, chunk).bufferLevel
  {
  }
}
