/**
 * One iteration of player/player.go's `streamLoop` for one track: the
 * hard-wired chunk replacement, the end-of-stream test, the rep-index clamp,
 * the initial-buffering and playing branches with stall detection, the
 * backpressure cap, the cumulative duration and play position, the QoE
 * running counters, the log record and the hand-off to the adaptation
 * strategy. Wall-clock readings are inputs, the sleep is an output, and the
 * recursive tail call is the loop of `StreamState.StreamLoop`.
 */
module Player {
  import opened Wrappers
  import opened GoNum
  import opened Debug
  import opened HlsFunctions
  import CalcFunctions
  import HelperFunctions
  import MpdParsing

  /** The name of the passive HLS replacement mode. */
  const HlsOn: string := "on"
  /** The chunk the passive mode re-fetches, and the segment at which it does. */
  const ChunkReplace: int := 5
  const ReplaceAtSegment: int := 6
  /** The base URL a representation of a non-byte-range MPD has. */
  const RepRateBaseURL: string := ""

  /** The per-track values the loop carries from one segment to the next. */
  datatype Track = Track(
    segmentNumber: int,
    repRate: int,
    bufferLevel: int,
    segmentDurationTotal: int,
    waitToPlayCounter: int,
    stallTime: int,
    playPosition: int,
    nStalls: int,
    nSwitches: int,
    log: map<int, SegPrintLogInformation>)

  /**
   * What the iteration reads but does not change: the stream's settings and
   * the values derived from the current MPD (segment duration in seconds,
   * the highest-quality index, the bitrate ladder). `isVideo` is the test of
   * the current representation's mime type; `lastMimeType` says whether this
   * track is the last one.
   */
  datatype TrackConfig = TrackConfig(
    initBuffer: int,
    maxBuffer: int,
    segmentDuration: int,
    streamDuration: int,
    highest: int,
    bandwithList: seq<int>,
    mpdIndex: int,
    extendPrintLog: bool,
    getQoE: bool,
    lastMimeType: bool,
    isVideo: bool,
    hlsBool: bool,
    hls: string,
    hlsUsed: bool)

  /** The inputs of the chunk replacement: the URL and MPD lists, and `elapsedMs`, its run time. */
  datatype HlsInput = HlsInput(urlInput: seq<string>, mpdList: seq<MpdParsing.MPD>, elapsedMs: int)

  /**
   * The measurements of one download: the segment size in bytes, the
   * delivery time and the arrival time in ms, and the time since the
   * previous segment's download ended.
   */
  datatype Download = Download(segSize: int, deliveryTime: int, arrivalTime: int, thisRunTimeVal: int)

  /** What the adaptation strategy is given after the download. */
  datatype AdaptInput = AdaptInput(thr: int, deliveryTime: int, bufferLevel: int, repRate: int,
                                   segmentNumber: int, segSize: int)

  /**
   * How an iteration ends: it returns before downloading, or it downloads and
   * sleeps `sleepTime` ms, and `finished` tells whether it then returns.
   */
  datatype StepOutcome = StoppedBeforeDownload | Downloaded(sleepTime: int, finished: bool)

  datatype StepResult = StepResult(track: Track, outcome: StepOutcome)

  // ---------------------------------------------------------------- chunk replacement

  /** The replacement fires for a video track in "on" mode at segment 6 only. */
  predicate ReplacementDue(c: TrackConfig, segmentNumber: int)
  {
    c.hlsBool && segmentNumber > 1 && c.isVideo && c.hls == HlsOn && segmentNumber == ReplaceAtSegment
  }

  /** The package variables of a track's state. */
  function GlobalsOf(t: Track): PlayerGlobals
  {
    PlayerGlobals(t.waitToPlayCounter, t.stallTime, t.playPosition, t.nStalls, t.nSwitches)
  }

  /** A track's state with the package variables replaced. */
  function WithGlobals(t: Track, g: PlayerGlobals): Track
  {
    t.(waitToPlayCounter := g.waitToPlayCounter, stallTime := g.stallTime, playPosition := g.playPosition,
       nStalls := g.nStalls, nSwitches := g.nSwitches)
  }

  /**
   * The track after the replacement: the package variables the nested
   * iteration left, the log it left shifted by the buffer difference over
   * the chunks after chunk 5, and the buffer lowered by the replacement's run
   * time plus that difference. The loop's own locals (segment number, rep
   * index, cumulative duration) are untouched.
   */
  function Replaced(t: Track, c: TrackConfig, h: HlsInput, replay: Replay): (r: Result<Track>)
    ensures !ReplacementDue(c, t.segmentNumber) ==> r == Ok(t)
    ensures r.Ok? ==> r.value.segmentNumber == t.segmentNumber && r.value.repRate == t.repRate &&
                      r.value.segmentDurationTotal == t.segmentDurationTotal
  {
    if !ReplacementDue(c, t.segmentNumber) then Ok(t)
    else match ReplayArguments(t.log, ChunkReplace, h.urlInput, h.mpdList, RepRateBaseURL)
      case Err(f) => Err(f)
      case Ok(args) =>
        var after := replay(args, GlobalsOf(t), t.log);
        var bufferDifference := Get(t.log, ChunkReplace).bufferLevel - Get(after.log, ChunkReplace).bufferLevel;
        Ok(WithGlobals(t, after.globals).(bufferLevel := t.bufferLevel - (h.elapsedMs + bufferDifference),
                                          log := Shifted(after.log, t.segmentNumber, ChunkReplace, bufferDifference)))
  }

  // ---------------------------------------------------------------- buffer

  /** The stall of a playing step: 0 while the buffer covers the run time, else the (negative) shortfall. */
  function StallOf(bufferLevel: int, thisRunTimeVal: int): (s: int)
    ensures s <= 0
    ensures s == 0 <==> bufferLevel - thisRunTimeVal >= 0
    ensures s < 0 ==> s == bufferLevel - thisRunTimeVal
  {
    var currentBuffer := bufferLevel - thisRunTimeVal;
    if currentBuffer >= 0 then 0 else currentBuffer
  }

  /**
   * The buffer after the download and before the cap: a playing track drains
   * by the run time (not below zero), then every track gains one segment.
   */
  function Refill(playing: bool, bufferLevel: int, thisRunTimeVal: int, segmentDuration: int): (b: int)
    ensures playing ==> b >= segmentDuration * Conversion1000
    ensures playing && bufferLevel >= thisRunTimeVal ==>
      b == bufferLevel - thisRunTimeVal + segmentDuration * Conversion1000
    ensures playing && bufferLevel < thisRunTimeVal ==> b == segmentDuration * Conversion1000
    ensures !playing ==> b == bufferLevel + segmentDuration * Conversion1000
  {
    if playing then CalcFunctions.Max(bufferLevel - thisRunTimeVal, 0) + segmentDuration * Conversion1000
    else bufferLevel + segmentDuration * Conversion1000
  }

  const Conversion1000: int := HelperFunctions.Conversion1000

  /** The sleep of the backpressure cap: the excess over maxBuffer seconds, or none. */
  function Excess(bufferLevel: int, maxBuffer: int): (sleepTime: int)
    ensures sleepTime >= 0
    ensures bufferLevel - sleepTime <= maxBuffer * Conversion1000
    ensures sleepTime > 0 <==> bufferLevel > maxBuffer * Conversion1000
    ensures sleepTime > 0 ==> bufferLevel - sleepTime == maxBuffer * Conversion1000
  {
    if bufferLevel > maxBuffer * Conversion1000 then bufferLevel - maxBuffer * Conversion1000 else 0
  }

  // ---------------------------------------------------------------- QoE counters

  /**
   * The running stall and switch counts: continued from the previous
   * segment's record, or started at the first segment.
   */
  function Counters(t: Track, stallTime: int, bandwidth: int): (n: (int, int))
    ensures t.segmentNumber > 1 ==>
      n.0 == Get(t.log, t.segmentNumber - 1).numStalls + (if stallTime > 0 then 1 else 0) &&
      n.1 == Get(t.log, t.segmentNumber - 1).numSwitches +
             (if bandwidth == Get(t.log, t.segmentNumber - 1).bandwidth then 0 else 1)
    ensures t.segmentNumber <= 1 ==> n == (if stallTime > 0 then 1 else 0, 0)
  {
    if t.segmentNumber > 1 then
      var previous := Get(t.log, t.segmentNumber - 1);
      (if stallTime > 0 then previous.numStalls + 1 else previous.numStalls,
       if bandwidth == previous.bandwidth then previous.numSwitches else previous.numSwitches + 1)
    else
      (if stallTime > 0 then 1 else 0, 0)
  }

  // ---------------------------------------------------------------- one iteration

  /** The rep-index clamp: an index above the highest-quality one is raised to it. */
  function ClampRep(repRate: int, highest: int): (r: int)
    ensures r >= highest && r >= repRate
    ensures repRate >= highest ==> r == repRate
  {
    if repRate < highest then highest else repRate
  }

  /** A track after the buffer update of a download, and the sleep of the cap. */
  datatype Playout = Playout(track: Track, sleepTime: int)

  /**
   * PrintPlayOutLog on the track's own log at `currentTime`: segments
   * 1..len(log) that are due are marked played, the length read once.
   */
  function PlayedMarked(m: map<int, SegPrintLogInformation>, currentTime: int, initBuffer: int)
    : map<int, SegPrintLogInformation>
  {
    MarkUpTo(m, currentTime, initBuffer, |m|)
  }

  /**
   * The buffer update of a download: the play-out marking and the stall of
   * a playing track, the refill, the cap, one more step of the wait-to-play
   * counter, one more segment of cumulative duration, and the play position.
   */
  function PlayOut(t: Track, c: TrackConfig, d: Download): (p: Playout)
    ensures p.track.(bufferLevel := t.bufferLevel, stallTime := t.stallTime, waitToPlayCounter := t.waitToPlayCounter,
                     segmentDurationTotal := t.segmentDurationTotal, playPosition := t.playPosition,
                     log := t.log) == t
  {
    var thisRunTimeVal := d.thisRunTimeVal;
    var playing := c.initBuffer <= t.waitToPlayCounter;
    var log := if playing && !c.hlsUsed then PlayedMarked(t.log, d.arrivalTime, c.initBuffer) else t.log;
    var stallTime := if playing then StallOf(t.bufferLevel, thisRunTimeVal) else t.stallTime;
    var filled := Refill(playing, t.bufferLevel, thisRunTimeVal, c.segmentDuration);
    var sleepTime := Excess(filled, c.maxBuffer);
    var bufferLevel := filled - sleepTime;
    var waitToPlayCounter := t.waitToPlayCounter + 1;
    var segmentDurationTotal := t.segmentDurationTotal + c.segmentDuration * Conversion1000;
    var playPosition := if c.extendPrintLog && c.initBuffer < waitToPlayCounter
                        then segmentDurationTotal - bufferLevel else t.playPosition;
    Playout(t.(bufferLevel := bufferLevel, stallTime := stallTime, waitToPlayCounter := waitToPlayCounter,
               segmentDurationTotal := segmentDurationTotal, playPosition := playPosition, log := log), sleepTime)
  }

  /**
   * The rest of a download on the played-out track: the QoE counters, the
   * log record under the segment number, the strategy's next index and the
   * end test.
   */
  function Record(t: Track, c: TrackConfig, d: Download, adapt: AdaptInput -> int, sleepTime: int)
    : (r: Result<StepResult>)
    ensures r.Ok? ==> r.value.outcome == Downloaded(sleepTime, PastEnd(t, c) && c.lastMimeType)
    ensures r.Ok? ==> r.value.track.(repRate := t.repRate, nStalls := t.nStalls, nSwitches := t.nSwitches,
                                     segmentNumber := t.segmentNumber, log := t.log) == t
  {
    var thr := HelperFunctions.CalculateThroughtput(d.segSize * 8, d.deliveryTime);
    if !(0 <= t.repRate < |c.bandwithList|) then Err(IndexOutOfRange)
    else if c.segmentDuration * Conversion1000 == 0 then Err(DivideByZero)
    else
      var counts := if c.getQoE then Counters(t, t.stallTime, c.bandwithList[t.repRate]) else (t.nStalls, t.nSwitches);
      var record := SegPrintLogInformation(
        d.arrivalTime, d.deliveryTime, t.stallTime, c.bandwithList[t.repRate], thr,
        Quo(d.segSize * 8, c.segmentDuration * Conversion1000), d.segSize, t.bufferLevel, c.segmentDuration,
        t.segmentDurationTotal, t.playPosition, t.repRate, c.mpdIndex, false, counts.0, counts.1);
      var next := adapt(AdaptInput(thr, d.deliveryTime, t.bufferLevel, t.repRate, t.segmentNumber, d.segSize));
      if !(0 <= next < |c.bandwithList|) then Err(IndexOutOfRange)
      else
        Ok(StepResult(
             t.(segmentNumber := t.segmentNumber + 1, repRate := next, nStalls := counts.0, nSwitches := counts.1,
                log := t.log[t.segmentNumber := record]),
             Downloaded(sleepTime, PastEnd(t, c) && c.lastMimeType)))
  }

  /** The iteration from the download on, on the track the replacement left. */
  function DownloadStep(t: Track, c: TrackConfig, d: Download, adapt: AdaptInput -> int): (r: Result<StepResult>)
    ensures !(0 <= ClampRep(t.repRate, c.highest) < |c.bandwithList|) ==> r == Err(IndexOutOfRange)
    ensures r.Ok? ==>
      r.value.outcome.Downloaded? && r.value.track.segmentNumber == t.segmentNumber + 1 &&
      0 <= r.value.track.repRate < |c.bandwithList|
  {
    var p := PlayOut(t.(repRate := ClampRep(t.repRate, c.highest)), c, d);
    Record(p.track, c, d, adapt, p.sleepTime)
  }

  /** True when the next segment would run past the stream duration. */
  predicate PastEnd(t: Track, c: TrackConfig)
  {
    t.segmentDurationTotal + c.segmentDuration * Conversion1000 > c.streamDuration
  }

  /**
   * One iteration: the mime-type lookup at the current index, the
   * replacement, the end test of the last track, then the download step.
   */
  function Step(t: Track, c: TrackConfig, d: Download, h: HlsInput,
                replay: Replay,
                adapt: AdaptInput -> int): (r: Result<StepResult>)
    ensures !(0 <= t.repRate < |c.bandwithList|) ==> r == Err(IndexOutOfRange)
    ensures r.Ok? && r.value.outcome.StoppedBeforeDownload? ==>
      r.value.track.segmentNumber == t.segmentNumber && c.lastMimeType
    ensures r.Ok? && r.value.outcome.Downloaded? ==> r.value.track.segmentNumber == t.segmentNumber + 1
  {
    if !(0 <= t.repRate < |c.bandwithList|) then Err(IndexOutOfRange)
    else match Replaced(t, c, h, replay)
      case Err(f) => Err(f)
      case Ok(t1) =>
        if PastEnd(t1, c) && c.lastMimeType then Ok(StepResult(t1, StoppedBeforeDownload))
        else DownloadStep(t1, c, d, adapt)
  }

  // ---------------------------------------------------------------- properties of a step

  /** After a download the buffer never exceeds maxBuffer seconds, and the sleep is exactly the excess. */
  lemma BufferCapped(t: Track, c: TrackConfig, d: Download, adapt: AdaptInput -> int)
    requires DownloadStep(t, c, d, adapt).Ok?
    ensures var s := DownloadStep(t, c, d, adapt).value;
      var filled := Refill(c.initBuffer <= t.waitToPlayCounter, t.bufferLevel, d.thisRunTimeVal, c.segmentDuration);
      s.outcome.Downloaded? &&
      s.track.bufferLevel <= c.maxBuffer * Conversion1000 &&
      s.outcome.sleepTime >= 0 &&
      s.track.bufferLevel + s.outcome.sleepTime == filled &&
      (s.outcome.sleepTime > 0 <==> filled > c.maxBuffer * Conversion1000) &&
      (s.outcome.sleepTime > 0 ==> s.track.bufferLevel == c.maxBuffer * Conversion1000)
  {
  }

  /** A playing step leaves at least one segment, or maxBuffer seconds if that is smaller. */
  lemma PlayingBufferFloor(t: Track, c: TrackConfig, d: Download, adapt: AdaptInput -> int)
    requires DownloadStep(t, c, d, adapt).Ok?
    requires c.initBuffer <= t.waitToPlayCounter
    ensures DownloadStep(t, c, d, adapt).value.track.bufferLevel
         >= CalcFunctions.Min(c.segmentDuration * Conversion1000, c.maxBuffer * Conversion1000)
  {
  }

  /**
   * Stalls: a playing step records 0 or the negative shortfall; a buffering
   * step keeps the previous value. So stall times are never positive once
   * they start non-positive.
   */
  lemma StallRule(t: Track, c: TrackConfig, d: Download, adapt: AdaptInput -> int)
    requires DownloadStep(t, c, d, adapt).Ok?
    ensures var s := DownloadStep(t, c, d, adapt).value.track;
      (c.initBuffer <= t.waitToPlayCounter ==>
         (t.bufferLevel - d.thisRunTimeVal >= 0 ==> s.stallTime == 0) &&
         (t.bufferLevel - d.thisRunTimeVal < 0 ==> s.stallTime == t.bufferLevel - d.thisRunTimeVal)) &&
      (c.initBuffer > t.waitToPlayCounter ==>
         s.stallTime == t.stallTime) &&
      (t.stallTime <= 0 ==> s.stallTime <= 0)
  {
  }

  /**
   * The stall counter never moves: with stall times never positive, each
   * segment's count is the previous segment's.
   */
  lemma StallsNeverCounted(t: Track, c: TrackConfig, d: Download, adapt: AdaptInput -> int)
    requires DownloadStep(t, c, d, adapt).Ok?
    requires t.stallTime <= 0 && c.getQoE
    ensures var s := DownloadStep(t, c, d, adapt).value.track;
      (t.segmentNumber > 1 ==> s.nStalls == Get(t.log, t.segmentNumber - 1).numStalls) &&
      (t.segmentNumber <= 1 ==> s.nStalls == 0)
  {
    MarkOnlySetsPlayed(t.log, d.arrivalTime, c.initBuffer, |t.log|, t.segmentNumber - 1);
  }

  /** The switch counter grows by one exactly when the bitrate differs from the previous segment's. */
  lemma SwitchCount(t: Track, c: TrackConfig, d: Download, adapt: AdaptInput -> int)
    requires DownloadStep(t, c, d, adapt).Ok?
    requires c.getQoE && t.segmentNumber > 1
    ensures var s := DownloadStep(t, c, d, adapt).value.track;
      var previous := Get(t.log, t.segmentNumber - 1);
      var bandwidth := c.bandwithList[ClampRep(t.repRate, c.highest)];
      (bandwidth != previous.bandwidth <==> s.nSwitches == previous.numSwitches + 1) &&
      (bandwidth == previous.bandwidth <==> s.nSwitches == previous.numSwitches)
  {
    MarkOnlySetsPlayed(t.log, d.arrivalTime, c.initBuffer, |t.log|, t.segmentNumber - 1);
  }

  /**
   * Every download advances the segment number by one, the cumulative
   * duration by one segment and the wait-to-play counter by one; the play
   * position is set only while extended logging is on and playback started.
   */
  lemma Progress(t: Track, c: TrackConfig, d: Download, adapt: AdaptInput -> int)
    requires DownloadStep(t, c, d, adapt).Ok?
    ensures var s := DownloadStep(t, c, d, adapt).value.track;
      s.segmentNumber == t.segmentNumber + 1 &&
      s.segmentDurationTotal == t.segmentDurationTotal + c.segmentDuration * Conversion1000 &&
      s.waitToPlayCounter == t.waitToPlayCounter + 1 &&
      (c.extendPrintLog && c.initBuffer < s.waitToPlayCounter ==>
         s.playPosition == s.segmentDurationTotal - s.bufferLevel) &&
      (!(c.extendPrintLog && c.initBuffer < s.waitToPlayCounter) ==> s.playPosition == t.playPosition)
  {
  }

  /**
   * The record stored under the segment number describes the download and
   * is not yet played. Every other key changes only by the play-out marking
   * of a playing step outside a replacement: its Played flag is set exactly
   * when it is one of segments 1..len(log) and was due at the arrival time.
   */
  lemma RecordStored(t: Track, c: TrackConfig, d: Download, adapt: AdaptInput -> int)
    requires DownloadStep(t, c, d, adapt).Ok?
    ensures var s := DownloadStep(t, c, d, adapt).value.track;
      var e := s.log[t.segmentNumber];
      t.segmentNumber in s.log &&
      e.bufferLevel == s.bufferLevel && e.stallTime == s.stallTime &&
      e.playStartPosition == s.segmentDurationTotal && e.playbackTime == s.playPosition &&
      e.repIndex == ClampRep(t.repRate, c.highest) && e.repIndex >= c.highest &&
      e.bandwidth == c.bandwithList[e.repIndex] && e.segSize == d.segSize && !e.played &&
      e.numStalls == s.nStalls && e.numSwitches == s.nSwitches
    ensures var s := DownloadStep(t, c, d, adapt).value.track;
      var marking := c.initBuffer <= t.waitToPlayCounter && !c.hlsUsed;
      forall k :: k != t.segmentNumber ==>
        Get(s.log, k).(played := false) == Get(t.log, k).(played := false) &&
        (Get(s.log, k).played <==>
           Get(t.log, k).played ||
           (marking && 1 <= k <= |t.log| && DueAt(t.log, k, d.arrivalTime, c.initBuffer)))
  {
    var s := DownloadStep(t, c, d, adapt).value.track;
    forall k | k != t.segmentNumber
      ensures Get(s.log, k).(played := false) == Get(t.log, k).(played := false)
      ensures Get(s.log, k).played <==>
        Get(t.log, k).played ||
        (c.initBuffer <= t.waitToPlayCounter && !c.hlsUsed && 1 <= k <= |t.log| &&
         DueAt(t.log, k, d.arrivalTime, c.initBuffer))
    {
      MarkUpToEntries(t.log, d.arrivalTime, c.initBuffer, |t.log|, k);
    }
  }

  /** The strategy's index is the next one, and it is always a valid ladder index. */
  lemma NextIndexValid(t: Track, c: TrackConfig, d: Download, adapt: AdaptInput -> int)
    requires DownloadStep(t, c, d, adapt).Ok?
    ensures 0 <= DownloadStep(t, c, d, adapt).value.track.repRate < |c.bandwithList|
  {
  }

  /**
   * The iteration returns before downloading exactly when the next segment
   * would run past the stream duration on the last track, and then changes
   * nothing but what the replacement changed.
   */
  lemma StopBeforeDownload(t: Track, c: TrackConfig, d: Download, h: HlsInput,
                           replay: Replay,
                           adapt: AdaptInput -> int)
    requires Step(t, c, d, h, replay, adapt).Ok?
    ensures var s := Step(t, c, d, h, replay, adapt).value;
      var t1 := Replaced(t, c, h, replay).value;
      (s.outcome.StoppedBeforeDownload? <==> PastEnd(t1, c) && c.lastMimeType) &&
      (s.outcome.StoppedBeforeDownload? ==> s.track == t1) &&
      (s.outcome.Downloaded? && s.outcome.finished ==>
         PastEnd(s.track, c) && c.lastMimeType)
  {
    var t1 := Replaced(t, c, h, replay).value;
    if !(PastEnd(t1, c) && c.lastMimeType) {
      Progress(t1, c, d, adapt);
    }
  }

  /** Outside segment 6 of a video track in "on" mode the replacement changes nothing. */
  lemma ReplacementOnlyAtSix(t: Track, c: TrackConfig, h: HlsInput,
                             replay: Replay)
    requires t.segmentNumber != ReplaceAtSegment || !c.hlsBool || !c.isVideo || c.hls != HlsOn
    ensures Replaced(t, c, h, replay) == Ok(t)
  {
  }

  /**
   * When the replacement fires, the package variables and the log are those
   * the nested iteration left (with the replacement hard-wired to segment 6
   * and chunk 5, the shift of the chunks in between covers no key), and the
   * buffer drops by the replacement's run time plus the buffer difference of
   * chunk 5.
   */
  lemma ReplacementEffect(t: Track, c: TrackConfig, h: HlsInput, replay: Replay)
    requires ReplacementDue(c, t.segmentNumber)
    requires Replaced(t, c, h, replay).Ok?
    ensures var args := ReplayArguments(t.log, ChunkReplace, h.urlInput, h.mpdList, RepRateBaseURL);
      var t1 := Replaced(t, c, h, replay).value;
      args.Ok? &&
      var after := replay(args.value, GlobalsOf(t), t.log);
      t1.log == after.log &&
      GlobalsOf(t1) == after.globals &&
      t1.bufferLevel == t.bufferLevel - h.elapsedMs
                        - (Get(t.log, ChunkReplace).bufferLevel - Get(after.log, ChunkReplace).bufferLevel)
  {
    var args := ReplayArguments(t.log, ChunkReplace, h.urlInput, h.mpdList, RepRateBaseURL);
    var after := replay(args.value, GlobalsOf(t), t.log);
    EmptyRangeChangesNothing(after.log, t.segmentNumber, ChunkReplace,
                             Get(t.log, ChunkReplace).bufferLevel - Get(after.log, ChunkReplace).bufferLevel);
  }

  // ---------------------------------------------------------------- the whole stream

  /**
   * What the network and the MPD choice give one iteration: the download, the
   * re-fetch inputs, the segment number GetNextSegmentDuration handed on, and
   * the `rand.Int()` of its MPD choice.
   */
  datatype Iteration = Iteration(download: Download, hls: HlsInput, nextSegmentNumber: int, pick: nat)

  /**
   * The package-level segmentDurationTotal. The loop of streamLoop declares
   * its own, so the package one keeps its initial value; the stop test after
   * the loop reads the package one.
   */
  const PackageSegmentDurationTotal: int := 0

  /**
   * streamLoop's stop flag for a stream of one MPD: GetNextSegmentDuration
   * over that MPD's segment duration, the package-level total and the track's
   * stream duration.
   */
  function StopPlayer(c: TrackConfig, pick: nat): Result<bool>
  {
    match MpdParsing.GetNextSegmentDuration([c.segmentDuration], c.segmentDuration * Conversion1000,
                                            PackageSegmentDurationTotal, c.streamDuration, pick)
    case Err(f) => Err(f)
    case Ok(next) => Ok(next.stopApp)
  }

  /**
   * The player stops exactly when one segment is longer than the whole
   * stream, whatever has been streamed; a zero segment duration is the
   * division panic.
   */
  lemma StopPlayerMeaning(c: TrackConfig, pick: nat)
    ensures c.segmentDuration == 0 ==> StopPlayer(c, pick) == Err(DivideByZero)
    ensures c.segmentDuration != 0 ==>
      StopPlayer(c, pick) == Ok(c.segmentDuration * Conversion1000 > c.streamDuration)
  {
    var ds := [c.segmentDuration];
    if c.segmentDuration != 0 {
      assert MpdParsing.NoZeroUpTo(ds, |ds|);
      MpdParsing.NextSegmentUsable(ds, c.segmentDuration * Conversion1000, PackageSegmentDurationTotal,
                                   c.streamDuration, pick);
      assert Rem(PackageSegmentDurationTotal, ds[0] * Conversion1000) == 0;
      assert MpdParsing.Usable(ds, 0, c.segmentDuration * Conversion1000, PackageSegmentDurationTotal, c.streamDuration)
         <==> c.segmentDuration * Conversion1000 <= c.streamDuration;
    }
  }

  /** The track after the stream, the sleep of every download, and whether the stream ended before the inputs. */
  datatype Run = Run(track: Track, sleeps: seq<int>, ended: bool)

  /** The iteration downloaded, did not finish the stream, and the player is not stopped. */
  predicate GoesOn(c: TrackConfig, o: StepOutcome, pick: nat)
  {
    o.Downloaded? && !o.finished && StopPlayer(c, pick) == Ok(false)
  }

  /** A run with `sleeps` performed before it. */
  function After(sleeps: seq<int>, r: Result<Run>): Result<Run>
  {
    if r.Err? then r else Ok(r.value.(sleeps := sleeps + r.value.sleeps))
  }

  /**
   * streamLoop's recursion for one track: iterate until a step fails, stops
   * before downloading, finishes the last track, or the stop flag is set.
   * One sleep is recorded per download; a run that did not end used every
   * input.
   */
  function Stream(t: Track, c: TrackConfig, its: seq<Iteration>,
                  replay: Replay,
                  adapt: AdaptInput -> int): (r: Result<Run>)
    ensures r.Ok? ==> |r.value.sleeps| <= |its|
    ensures r.Ok? && !r.value.ended ==> |r.value.sleeps| == |its|
    decreases |its|
  {
    if |its| == 0 then Ok(Run(t, [], false))
    else match Step(t, c, its[0].download, its[0].hls, replay, adapt)
      case Err(f) => Err(f)
      case Ok(s) =>
        match s.outcome
        case StoppedBeforeDownload => Ok(Run(s.track, [], true))
        case Downloaded(sleepTime, finished) =>
          if finished then Ok(Run(s.track, [sleepTime], true))
          else match StopPlayer(c, its[0].pick)
            case Err(f) => Err(f)
            case Ok(stop) =>
              if stop then Ok(Run(s.track, [sleepTime], true))
              else After([sleepTime], Stream(s.track, c, its[1..], replay, adapt))
  }

  /**
   * One iteration of the loop against the whole stream: given what the step
   * from `t` returned and the track `t1` it left, what the stream has become.
   */
  lemma StreamAdvance(whole: Result<Run>, sleeps: seq<int>, t: Track, t1: Track, c: TrackConfig,
                      its: seq<Iteration>, k: nat, r: Result<StepOutcome>,
                      replay: Replay,
                      adapt: AdaptInput -> int)
    requires k < |its|
    requires whole == After(sleeps, Stream(t, c, its[k..], replay, adapt))
    requires var s := Step(t, c, its[k].download, its[k].hls, replay, adapt);
      (s.Err? ==> r == Err(s.failure)) && (s.Ok? ==> r == Ok(s.value.outcome) && t1 == s.value.track)
    ensures r.Err? ==> whole == Err(r.failure)
    ensures r.Ok? && r.value.StoppedBeforeDownload? ==> whole == Ok(Run(t1, sleeps, true))
    ensures r.Ok? && r.value.Downloaded? && (r.value.finished || StopPlayer(c, its[k].pick) == Ok(true)) ==>
      whole == Ok(Run(t1, sleeps + [r.value.sleepTime], true))
    ensures r.Ok? && r.value.Downloaded? && !r.value.finished && StopPlayer(c, its[k].pick).Err? ==>
      whole == Err(StopPlayer(c, its[k].pick).failure)
    ensures r.Ok? && GoesOn(c, r.value, its[k].pick) ==>
      whole == After(sleeps + [r.value.sleepTime], Stream(t1, c, its[k + 1..], replay, adapt))
  {
    assert its[k..][0] == its[k] && its[k..][1..] == its[k + 1..];
    assert sleeps + [] == sleeps;
    if r.Ok? && GoesOn(c, r.value, its[k].pick) {
      var rest := Stream(t1, c, its[k + 1..], replay, adapt);
      if rest.Ok? {
        assert sleeps + ([r.value.sleepTime] + rest.value.sleeps) == (sleeps + [r.value.sleepTime]) + rest.value.sleeps;
      }
    }
  }

  /**
   * Over the whole stream, each download advances the segment number by one
   * and the cumulative duration by one segment; the replacement touches
   * neither.
   */
  lemma {:induction false} StreamProgress(t: Track, c: TrackConfig, its: seq<Iteration>,
                                          replay: Replay,
                                          adapt: AdaptInput -> int)
    requires Stream(t, c, its, replay, adapt).Ok?
    ensures var r := Stream(t, c, its, replay, adapt).value;
      r.track.segmentNumber == t.segmentNumber + |r.sleeps| &&
      r.track.segmentDurationTotal == t.segmentDurationTotal + |r.sleeps| * (c.segmentDuration * Conversion1000)
    decreases |its|
  {
    if |its| > 0 {
      var s := Step(t, c, its[0].download, its[0].hls, replay, adapt).value;
      StepProgress(t, c, its[0].download, its[0].hls, replay, adapt);
      if GoesOn(c, s.outcome, its[0].pick) {
        var rest := Stream(s.track, c, its[1..], replay, adapt).value;
        StreamProgress(s.track, c, its[1..], replay, adapt);
        assert |Stream(t, c, its, replay, adapt).value.sleeps| == 1 + |rest.sleeps|;
        OneMore(|rest.sleeps|, c.segmentDuration * Conversion1000);
      }
    }
  }

  lemma OneMore(n: int, x: int)
    ensures (1 + n) * x == x + n * x
  {
  }

  /** A step that downloads advances the segment number by one and the cumulative duration by one segment. */
  lemma StepProgress(t: Track, c: TrackConfig, d: Download, h: HlsInput,
                     replay: Replay,
                     adapt: AdaptInput -> int)
    requires Step(t, c, d, h, replay, adapt).Ok?
    ensures var s := Step(t, c, d, h, replay, adapt).value;
      (s.outcome.Downloaded? ==>
         s.track.segmentNumber == t.segmentNumber + 1 &&
         s.track.segmentDurationTotal == t.segmentDurationTotal + c.segmentDuration * Conversion1000) &&
      (s.outcome.StoppedBeforeDownload? ==>
         s.track.segmentNumber == t.segmentNumber && s.track.segmentDurationTotal == t.segmentDurationTotal)
  {
    var t1 := Replaced(t, c, h, replay).value;
    if !(PastEnd(t1, c) && c.lastMimeType) {
      Progress(t1, c, d, adapt);
    }
  }

  /**
   * The stream ends early only past the end of the last track, or after a
   * download when one segment is longer than the whole stream (the stop
   * flag); when it uses every input without ending, its last download did
   * not reach the end.
   */
  lemma {:induction false} StreamEnds(t: Track, c: TrackConfig, its: seq<Iteration>,
                                      replay: Replay,
                                      adapt: AdaptInput -> int)
    requires Stream(t, c, its, replay, adapt).Ok?
    ensures var r := Stream(t, c, its, replay, adapt).value;
      (r.ended ==> (PastEnd(r.track, c) && c.lastMimeType) ||
                   (|r.sleeps| > 0 && c.segmentDuration * Conversion1000 > c.streamDuration)) &&
      (!r.ended && |its| > 0 ==> !(PastEnd(r.track, c) && c.lastMimeType))
    decreases |its|
  {
    if |its| > 0 {
      var s := Step(t, c, its[0].download, its[0].hls, replay, adapt).value;
      StopBeforeDownload(t, c, its[0].download, its[0].hls, replay, adapt);
      StopPlayerMeaning(c, its[0].pick);
      if GoesOn(c, s.outcome, its[0].pick) {
        var t1 := Replaced(t, c, its[0].hls, replay).value;
        Progress(t1, c, its[0].download, adapt);
        StreamEnds(s.track, c, its[1..], replay, adapt);
        var rest := Stream(s.track, c, its[1..], replay, adapt).value;
        if |its| == 1 {
          assert rest.track == s.track;
        }
      }
    }
  }

  /**
   * From a non-negative start and with a non-negative segment duration, a
   * stream that ends has run past the stream duration: the next segment
   * would not fit.
   */
  lemma StreamEndsPastEnd(t: Track, c: TrackConfig, its: seq<Iteration>,
                          replay: Replay,
                          adapt: AdaptInput -> int)
    requires Stream(t, c, its, replay, adapt).Ok?
    requires t.segmentDurationTotal >= 0 && c.segmentDuration >= 0
    ensures var r := Stream(t, c, its, replay, adapt).value;
      r.ended ==> PastEnd(r.track, c)
  {
    var r := Stream(t, c, its, replay, adapt).value;
    StreamEnds(t, c, its, replay, adapt);
    StreamProgress(t, c, its, replay, adapt);
    MpdParsing.NonNegativeProduct(|r.sleeps|, c.segmentDuration * Conversion1000);
  }

  /** Every sleep of the stream is non-negative: the loop only ever waits. */
  lemma {:induction false} StreamSleepsNonNegative(t: Track, c: TrackConfig, its: seq<Iteration>,
                                                   replay: Replay,
                                                   adapt: AdaptInput -> int)
    requires Stream(t, c, its, replay, adapt).Ok?
    ensures var r := Stream(t, c, its, replay, adapt).value;
      forall k :: 0 <= k < |r.sleeps| ==> r.sleeps[k] >= 0
    decreases |its|
  {
    if |its| > 0 {
      var s := Step(t, c, its[0].download, its[0].hls, replay, adapt).value;
      if s.outcome.Downloaded? {
        var t1 := Replaced(t, c, its[0].hls, replay).value;
        BufferCapped(t1, c, its[0].download, adapt);
        if GoesOn(c, s.outcome, its[0].pick) {
          StreamSleepsNonNegative(s.track, c, its[1..], replay, adapt);
        }
      }
    }
  }

  // ---------------------------------------------------------------- the stateful loop

  /** PrintPlayOutLog's marking loop on a track's log, the length read once. */
  method MarkPlayOut(log: SegmentLog, currentTime: int, initBuffer: int)
    modifies log
    ensures log.entries == PlayedMarked(old(log.entries), currentTime, initBuffer)
  {
    ghost var start := log.entries;
    var n := |log.entries|;
    var k := 1;
    while k <= n
      invariant 1 <= k <= n + 1
      invariant log.entries == MarkUpTo(start, currentTime, initBuffer, k - 1)
      decreases n + 1 - k
    {
      MarkStep(start, currentTime, initBuffer, k);
      var m := log.entries;
      if currentTime >= Get(m, k - 1).playStartPosition + Get(m, initBuffer).playStartPosition && !Get(m, k).played {
        log.entries := m[k := Get(m, k).(played := true)];
      }
      k := k + 1;
    }
  }

  /**
   * A track's loop state: the per-track values of `streamStructs`, the
   * package globals that carry the counters and the stall, and the track's
   * log map, which the replacement and the loop both update in place.
   */
  class StreamState {
    var segmentNumber: int
    var repRate: int
    var bufferLevel: int
    var segmentDurationTotal: int
    var waitToPlayCounter: int
    var stallTime: int
    var playPosition: int
    var nStalls: int
    var nSwitches: int
    const log: SegmentLog

    /** The state before the first segment: segment 1, nothing buffered or counted. */
    constructor (log: SegmentLog, repRate: int)
      ensures this.log == log
      ensures Snapshot() == Track(1, repRate, 0, 0, 0, 0, 0, 0, 0, log.entries)
    {
      this.log := log;
      segmentNumber := 1;
      this.repRate := repRate;
      bufferLevel := 0;
      segmentDurationTotal := 0;
      waitToPlayCounter := 0;
      stallTime := 0;
      playPosition := 0;
      nStalls := 0;
      nSwitches := 0;
    }

    function Snapshot(): Track
      reads this, log
    {
      Track(segmentNumber, repRate, bufferLevel, segmentDurationTotal, waitToPlayCounter, stallTime,
            playPosition, nStalls, nSwitches, log.entries)
    }

    /** The replacement block: GetHlsSegment, the buffer drop and ChangeBufferLevels. */
    method ReplaceChunk(c: TrackConfig, h: HlsInput, nextSegmentNumber: int,
                        replay: Replay)
      returns (failure: Option<Failure>)
      modifies this, log
      ensures var r := Replaced(old(Snapshot()), c, h, replay);
        (r.Err? ==> failure == Some(r.failure)) &&
        (r.Ok? ==> failure == None && Snapshot() == r.value)
    {
      if c.hlsBool && segmentNumber > 1 && c.isVideo {
        if c.hls == HlsOn {
          if segmentNumber == ReplaceAtSegment {
            failure := ReplaceDueChunk(c, h, nextSegmentNumber, replay);
            return;
          }
        }
      }
      return None;
    }

    /** The body of the replacement block, once the replacement is due. */
    method ReplaceDueChunk(c: TrackConfig, h: HlsInput, nextSegmentNumber: int,
                           replay: Replay)
      returns (failure: Option<Failure>)
      requires ReplacementDue(c, segmentNumber)
      modifies this, log
      ensures var r := Replaced(old(Snapshot()), c, h, replay);
        (r.Err? ==> failure == Some(r.failure)) &&
        (r.Ok? ==> failure == None && Snapshot() == r.value)
    {
      ghost var t := Snapshot();
      var chunkReplace := ChunkReplace;
      var globals := PlayerGlobals(waitToPlayCounter, stallTime, playPosition, nStalls, nSwitches);
      assert globals == GlobalsOf(t);
      var outcome := GetHlsSegment(log, chunkReplace, h.urlInput, h.mpdList, RepRateBaseURL,
                                   nextSegmentNumber, h.elapsedMs, globals, replay);
      if outcome.Err? {
        return Some(outcome.failure);
      }
      ApplyReplacement(outcome.value.globals, outcome.value.thisRunTimeVal, outcome.value.bufferDifference);
      return None;
    }

    /**
     * After the re-fetch: the package variables it left, the buffer drop by
     * run time plus difference, and ChangeBufferLevels over the later chunks.
     */
    method ApplyReplacement(g: PlayerGlobals, thisRunTimeVal: int, bufferDifference: int)
      modifies this, log
      ensures Snapshot() == WithGlobals(old(Snapshot()), g).(
        bufferLevel := old(bufferLevel) - (thisRunTimeVal + bufferDifference),
        log := Shifted(old(log.entries), segmentNumber, ChunkReplace, bufferDifference))
    {
      waitToPlayCounter, stallTime, playPosition, nStalls, nSwitches :=
        g.waitToPlayCounter, g.stallTime, g.playPosition, g.nStalls, g.nSwitches;
      bufferLevel := bufferLevel - (thisRunTimeVal + bufferDifference);
      var same := ChangeBufferLevels(log, segmentNumber, ChunkReplace, bufferDifference);
    }

    /** The buffer update of a download, with the track's index already clamped. */
    method BufferSegment(c: TrackConfig, d: Download) returns (sleepTime: int)
      modifies this, log
      ensures var p := PlayOut(old(Snapshot()), c, d);
        Snapshot() == p.track && sleepTime == p.sleepTime
    {
      FillBuffer(c, d);
      sleepTime := 0;
      if bufferLevel > c.maxBuffer * Conversion1000 {
        sleepTime := bufferLevel - c.maxBuffer * Conversion1000;
        bufferLevel := bufferLevel - sleepTime;
      }
      if c.extendPrintLog && c.initBuffer < waitToPlayCounter {
        playPosition := segmentDurationTotal + c.segmentDuration * Conversion1000 - bufferLevel;
        segmentDurationTotal := segmentDurationTotal + c.segmentDuration * Conversion1000;
      } else {
        segmentDurationTotal := segmentDurationTotal + c.segmentDuration * Conversion1000;
      }
    }

    /** The playing or buffering branch: the play-out marking, the stall, the refill and the wait counter. */
    method FillBuffer(c: TrackConfig, d: Download)
      modifies this, log
      ensures var t := old(Snapshot());
        var playing := c.initBuffer <= t.waitToPlayCounter;
        Snapshot() == t.(bufferLevel := Refill(playing, t.bufferLevel, d.thisRunTimeVal, c.segmentDuration),
                         stallTime := if playing then StallOf(t.bufferLevel, d.thisRunTimeVal) else t.stallTime,
                         waitToPlayCounter := t.waitToPlayCounter + 1,
                         log := if playing && !c.hlsUsed then PlayedMarked(t.log, d.arrivalTime, c.initBuffer)
                                else t.log)
    {
      var thisRunTimeVal := d.thisRunTimeVal;
      if c.initBuffer <= waitToPlayCounter {
        if !c.hlsUsed {
          MarkPlayOut(log, d.arrivalTime, c.initBuffer);
        }
        var currentBuffer := bufferLevel - thisRunTimeVal;
        if currentBuffer >= 0 {
          stallTime := 0;
        } else {
          stallTime := currentBuffer;
        }
        bufferLevel := CalcFunctions.Max(bufferLevel - thisRunTimeVal, 0) + c.segmentDuration * Conversion1000;
        waitToPlayCounter := waitToPlayCounter + 1;
      } else {
        bufferLevel := bufferLevel + c.segmentDuration * Conversion1000;
        waitToPlayCounter := waitToPlayCounter + 1;
      }
    }

    /** The QoE counters, the log record, the strategy's decision and the end test. */
    method RecordSegment(c: TrackConfig, d: Download, adapt: AdaptInput -> int, sleepTime: int)
      returns (r: Result<StepOutcome>)
      modifies this, log
      ensures var s := Record(old(Snapshot()), c, d, adapt, sleepTime);
        (s.Err? ==> r == Err(s.failure)) &&
        (s.Ok? ==> r == Ok(s.value.outcome) && Snapshot() == s.value.track)
    {
      var thr := HelperFunctions.CalculateThroughtput(d.segSize * 8, d.deliveryTime);
      if !(0 <= repRate < |c.bandwithList|) {
        return Err(IndexOutOfRange);
      }
      if c.getQoE {
        if segmentNumber > 1 {
          var previous := Get(log.entries, segmentNumber - 1);
          if stallTime > 0 {
            nStalls := previous.numStalls + 1;
          } else {
            nStalls := previous.numStalls;
          }
          if c.bandwithList[repRate] == previous.bandwidth {
            nSwitches := previous.numSwitches;
          } else {
            nSwitches := previous.numSwitches + 1;
          }
        } else {
          if stallTime > 0 {
            nStalls := 1;
          } else {
            nStalls := 0;
          }
          nSwitches := 0;
        }
      }
      if c.segmentDuration * Conversion1000 == 0 {
        return Err(DivideByZero);
      }
      var printInformation := SegPrintLogInformation(
        d.arrivalTime, d.deliveryTime, stallTime, c.bandwithList[repRate], thr,
        Quo(d.segSize * 8, c.segmentDuration * Conversion1000), d.segSize, bufferLevel, c.segmentDuration,
        segmentDurationTotal, playPosition, repRate, c.mpdIndex, false, nStalls, nSwitches);
      log.entries := log.entries[segmentNumber := printInformation];
      repRate := adapt(AdaptInput(thr, d.deliveryTime, bufferLevel, repRate, segmentNumber, d.segSize));
      if !(0 <= repRate < |c.bandwithList|) {
        return Err(IndexOutOfRange);
      }
      segmentNumber := segmentNumber + 1;
      var finished := false;
      if segmentDurationTotal + c.segmentDuration * Conversion1000 > c.streamDuration {
        if c.lastMimeType {
          finished := true;
        }
      }
      return Ok(Downloaded(sleepTime, finished));
    }

    /** The iteration from the download on: the clamp, the buffer update and the record. */
    method DownloadSegment(c: TrackConfig, d: Download, adapt: AdaptInput -> int) returns (r: Result<StepOutcome>)
      modifies this, log
      ensures var s := DownloadStep(old(Snapshot()), c, d, adapt);
        (s.Err? ==> r == Err(s.failure)) &&
        (s.Ok? ==> r == Ok(s.value.outcome) && Snapshot() == s.value.track)
    {
      if repRate < c.highest {
        repRate := c.highest;
      }
      var sleepTime := BufferSegment(c, d);
      r := RecordSegment(c, d, adapt, sleepTime);
    }

    /** One iteration of streamLoop for this track. */
    method StreamSegment(c: TrackConfig, d: Download, h: HlsInput, nextSegmentNumber: int,
                         replay: Replay,
                         adapt: AdaptInput -> int)
      returns (r: Result<StepOutcome>)
      modifies this, log
      ensures var s := Step(old(Snapshot()), c, d, h, replay, adapt);
        (s.Err? ==> r == Err(s.failure)) &&
        (s.Ok? ==> r == Ok(s.value.outcome) && Snapshot() == s.value.track)
    {
      if !(0 <= repRate < |c.bandwithList|) {
        return Err(IndexOutOfRange);
      }
      var failure := ReplaceChunk(c, h, nextSegmentNumber, replay);
      if failure.Some? {
        return Err(failure.value);
      }
      if segmentDurationTotal + c.segmentDuration * Conversion1000 > c.streamDuration && c.lastMimeType {
        return Ok(StoppedBeforeDownload);
      }
      r := DownloadSegment(c, d, adapt);
    }

    /**
     * streamLoop for this track, its tail call turned into a loop over the
     * iterations: it returns the sleeps of the downloads, whether the stream
     * ended, and the failure that cut it short, if any.
     */
    method StreamLoop(c: TrackConfig, its: seq<Iteration>,
                      replay: Replay,
                      adapt: AdaptInput -> int)
      returns (sleeps: seq<int>, ended: bool, failure: Option<Failure>)
      modifies this, log
      ensures var s := Stream(old(Snapshot()), c, its, replay, adapt);
        (s.Err? ==> failure == Some(s.failure)) &&
        (s.Ok? ==> failure == None && sleeps == s.value.sleeps && ended == s.value.ended &&
                   Snapshot() == s.value.track)
    {
      ghost var whole := Stream(Snapshot(), c, its, replay, adapt);
      sleeps := [];
      ended := false;
      failure := None;
      var k := 0;
      assert its[0..] == its;
      assert whole.Ok? ==> [] + whole.value.sleeps == whole.value.sleeps;
      while k < |its|
        invariant 0 <= k <= |its|
        invariant whole == After(sleeps, Stream(Snapshot(), c, its[k..], replay, adapt))
        decreases |its| - k
      {
        ghost var before := Snapshot();
        var it := its[k];
        var r := StreamSegment(c, it.download, it.hls, it.nextSegmentNumber, replay, adapt);
        StreamAdvance(whole, sleeps, before, Snapshot(), c, its, k, r, replay, adapt);
        if r.Err? {
          return sleeps, false, Some(r.failure);
        }
        match r.value
        case StoppedBeforeDownload =>
          return sleeps, true, None;
        case Downloaded(sleepTime, finished) =>
          if finished {
            return sleeps + [sleepTime], true, None;
          }
          var next := MpdParsing.GetNextSegmentDuration([c.segmentDuration], c.segmentDuration * Conversion1000,
                                                        PackageSegmentDurationTotal, c.streamDuration, it.pick);
          if next.Err? {
            return sleeps, false, Some(next.failure);
          }
          if next.value.stopApp {
            return sleeps + [sleepTime], true, None;
          }
          sleeps := sleeps + [sleepTime];
          k := k + 1;
      }
      assert sleeps + [] == sleeps;
    }
  }
}
