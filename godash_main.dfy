/**
 * The checks and rewrites main.go applies before streaming: turning a
 * ladder listed from low to high bitrate around, the stream duration in
 * milliseconds, and the validation of the numeric and enumerated settings
 * with the two booleans they set. Every setting is treated as given (the
 * `IsFlagSet || configSet` guards are taken as true).
 */
module GodashMain {
  import opened Wrappers
  import opened GoStrings
  import MpdParsing
  import UrlParsing
  import AppFunctions

  const Conversion1000: int := 1000

  /** The non-byte-range marker every representation base URL is compared with. */
  const RepRateBaseURL: string := ""

  const codecSlice: seq<string> := ["h264", "h265", "VP9", "AV1"]
  const algorithmSlice: seq<string> :=
    ["conventional", "elastic", "logistic", "test", "progressive", "average", "geometric", "exponential",
     "arbiter", "bba"]
  const hlsSlice: seq<string> := ["off", "on"]
  const storeFilesSlice: seq<string> := ["off", "on"]

  // ---------------------------------------------------------------- ladder reversal

  /** The ladder turned around: position j holds rung |reps|−1−j, renumbered j+1. */
  function Reversed(reps: seq<MpdParsing.Representation>): (r: seq<MpdParsing.Representation>)
    ensures |r| == |reps|
  {
    seq(|reps|, j requires 0 <= j < |reps| => reps[|reps| - 1 - j].(id := Itoa(j + 1)))
  }

  /**
   * The loop of main.go over the re-read representation array: from the
   * last position down, each takes the next original rung and the number of
   * its position. When the re-read array is shorter, the first write is out
   * of range and nothing is written.
   */
  method ReverseRepresentations(original: seq<MpdParsing.Representation>, reversed: array<MpdParsing.Representation>)
    returns (ok: bool)
    modifies reversed
    ensures ok <==> |original| <= reversed.Length
    ensures !ok ==> reversed[..] == old(reversed[..])
    ensures ok ==> reversed[..] == Reversed(original) + old(reversed[..])[|original|..]
  {
    if reversed.Length < |original| {
      return false;
    }
    var i := 0;
    var j := |original| - 1;
    while j >= 0
      invariant -1 <= j < |original| && i == |original| - 1 - j
      invariant forall p :: j < p < |original| ==> reversed[p] == original[|original| - 1 - p].(id := Itoa(p + 1))
      invariant forall p :: 0 <= p <= j || |original| <= p < reversed.Length ==> reversed[p] == old(reversed[p])
    {
      reversed[j] := original[i];
      reversed[j] := reversed[j].(id := Itoa(j + 1));
      i := i + 1;
      j := j - 1;
    }
    assert reversed[..] == Reversed(original) + old(reversed[..])[|original|..];
    return true;
  }

  /** A ladder listed from low to high bitrate runs from high to low once turned around. */
  lemma ReversedLadderDescends(reps: seq<MpdParsing.Representation>)
    requires forall a, b :: 0 <= a < b < |reps| ==> reps[a].bandWidth < reps[b].bandWidth
    ensures forall a, b :: 0 <= a < b < |reps| ==> Reversed(reps)[a].bandWidth > Reversed(reps)[b].bandWidth
  {
  }

  /** Turning a ladder around twice gives it back, renumbered from 1. */
  lemma ReversedTwice(reps: seq<MpdParsing.Representation>)
    ensures Reversed(Reversed(reps)) == seq(|reps|, j requires 0 <= j < |reps| => reps[j].(id := Itoa(j + 1)))
  {
  }

  /** The MPD with adaptation set k of its first period replaced. */
  function WithAdaptationSet(mpd: MpdParsing.MPD, k: int, aset: MpdParsing.AdaptationSet): (r: MpdParsing.MPD)
    requires MpdParsing.AdaptationSetAt(mpd, k).Ok?
    ensures MpdParsing.AdaptationSetAt(r, k) == Ok(aset)
    ensures r.mediaPresentationDuration == mpd.mediaPresentationDuration
    ensures r.maxSegmentDuration == mpd.maxSegmentDuration
    ensures |r.periods| == |mpd.periods| && r.periods[1..] == mpd.periods[1..]
    ensures |r.periods[0].adaptationSet| == |mpd.periods[0].adaptationSet|
    ensures forall i :: 0 <= i < |mpd.periods[0].adaptationSet| && i != k ==>
      r.periods[0].adaptationSet[i] == mpd.periods[0].adaptationSet[i]
  {
    var p := mpd.periods[0];
    mpd.(periods := mpd.periods[0 := p.(adaptationSet := p.adaptationSet[k := aset])])
  }

  /** Whether the ladder of adaptation set k of the first MPD starts below where it ends. */
  predicate Ascending(reps: seq<MpdParsing.Representation>)
    requires |reps| > 0
  {
    reps[0].bandWidth < reps[|reps| - 1].bandWidth
  }

  /**
   * main.go's ladder check on the first MPD: when its first rung is slower
   * than its last, adaptation set k is taken from the re-read MPD list with
   * the original rungs turned around; nothing else changes.
   */
  method NormaliseLadder(structList: seq<MpdParsing.MPD>, reread: seq<MpdParsing.MPD>, k: int)
    returns (r: Result<seq<MpdParsing.MPD>>)
    ensures r.Ok? ==>
      |structList| > 0 && MpdParsing.AdaptationSetAt(structList[0], k).Ok? &&
      var reps := MpdParsing.AdaptationSetAt(structList[0], k).value.representation;
      |reps| > 0 &&
      (!Ascending(reps) ==> r.value == structList) &&
      (Ascending(reps) ==>
         |reread| > 0 && MpdParsing.AdaptationSetAt(reread[0], k).Ok? &&
         var aset := MpdParsing.AdaptationSetAt(reread[0], k).value;
         |reps| <= |aset.representation| &&
         r.value == structList[0 := WithAdaptationSet(structList[0], k, aset.(representation :=
           Reversed(reps) + aset.representation[|reps|..]))])
    ensures r.Err? ==> r.failure == IndexOutOfRange
  {
    if |structList| == 0 {
      return Err(IndexOutOfRange);
    }
    var got := MpdParsing.AdaptationSetAt(structList[0], k);
    if got.Err? {
      return Err(got.failure);
    }
    var reps := got.value.representation;
    var mpdLength := |reps|;
    if mpdLength == 0 {
      return Err(IndexOutOfRange);
    }
    var mpdIndex0 := reps[0].bandWidth;
    var mpdIndexMax := reps[mpdLength - 1].bandWidth;
    if mpdIndex0 < mpdIndexMax {
      if |reread| == 0 {
        return Err(IndexOutOfRange);
      }
      var again := MpdParsing.AdaptationSetAt(reread[0], k);
      if again.Err? {
        return Err(again.failure);
      }
      var aset := again.value;
      var reversed := new MpdParsing.Representation[|aset.representation|](i requires 0 <= i < |aset.representation| => aset.representation[i]);
      assert reversed[..] == aset.representation;
      var ok := ReverseRepresentations(reps, reversed);
      if !ok {
        return Err(IndexOutOfRange);
      }
      var newSet := aset.(representation := reversed[..]);
      return Ok(structList[0 := WithAdaptationSet(structList[0], k, newSet)]);
    }
    return Ok(structList);
  }

  // ---------------------------------------------------------------- stream duration

  /** The stream duration of main.go, in milliseconds, and whether the first MPD is a byte-range one. */
  datatype StreamSetting = StreamSetting(streamDurationMs: int, isByteRangeMPD: bool)

  /** The length of the first MPD in seconds: its segments but the last at full length, plus the last one. */
  function MpdStreamDuration(structList: seq<MpdParsing.MPD>, isByteRangeMPD: bool): (r: Result<int>)
  {
    match MpdParsing.SegmentDetails(structList, 0, isByteRangeMPD, 0)
    case Err(f) => Err(f)
    case Ok((maxSegments, segmentDurationArray)) =>
      WithLastSegment(structList[0], maxSegments, segmentDurationArray[0])
  }

  /** All segments but the last at `segmentDuration`, then the MPD's maximum segment duration. */
  function WithLastSegment(mpd: MpdParsing.MPD, maxSegments: int, segmentDuration: int): Result<int>
  {
    match MpdParsing.SplitMPDSegmentDuration(mpd.maxSegmentDuration)
    case Err(f) => Err(f)
    case Ok(lastSegmentDuration) => Ok(segmentDuration * (maxSegments - 1) + lastSegmentDuration)
  }

  /**
   * The inline computation of main.go agrees with the maximum stream
   * duration the MPD parser reports for an unset stream duration.
   */
  lemma MpdStreamDurationIsMaxStreamDuration(structList: seq<MpdParsing.MPD>, isByteRangeMPD: bool)
    ensures var details := MpdParsing.SegmentDetails(structList, 0, isByteRangeMPD, 0);
      (details.Err? ==> MpdStreamDuration(structList, isByteRangeMPD) == Err(details.failure)) &&
      (details.Ok? ==> MpdStreamDuration(structList, isByteRangeMPD) ==
                       MpdParsing.MaxStreamDuration(structList[0], details.value.0, details.value.1[0], 0))
  {
    var details := MpdParsing.SegmentDetails(structList, 0, isByteRangeMPD, 0);
    if details.Ok? {
      LastSegmentAdded(structList[0], details.value.0, details.value.1[0]);
    }
  }

  /** The unset-request branch of MaxStreamDuration is main.go's formula. */
  lemma LastSegmentAdded(mpd: MpdParsing.MPD, maxSegments: int, segmentDuration: int)
    ensures MpdParsing.MaxStreamDuration(mpd, maxSegments, segmentDuration, 0) ==
            WithLastSegment(mpd, maxSegments, segmentDuration)
  {
  }

  /**
   * The stream-duration check: a negative request or one longer than the
   * MPD is fatal; zero means the whole MPD; the result is in milliseconds.
   */
  function StreamDuration(structList: seq<MpdParsing.MPD>, requested: int): (r: Result<StreamSetting>)
    ensures requested < 0 ==> r.Err? && r.failure.Fatal?
    ensures r.Ok? ==>
      |structList| > 0 && UrlParsing.GetRepresentationBaseURL(structList[0], 0).Ok? &&
      var byteRange := UrlParsing.GetRepresentationBaseURL(structList[0], 0).value != RepRateBaseURL;
      var mpdDur := MpdStreamDuration(structList, byteRange);
      r.value.isByteRangeMPD == byteRange && mpdDur.Ok? && 0 <= requested <= mpdDur.value &&
      r.value.streamDurationMs == (if requested == 0 then mpdDur.value else requested) * Conversion1000
    ensures r.Err? && r.failure.Fatal? && requested >= 0 && |structList| > 0 &&
            UrlParsing.GetRepresentationBaseURL(structList[0], 0).Ok? ==>
      var byteRange := UrlParsing.GetRepresentationBaseURL(structList[0], 0).value != RepRateBaseURL;
      var mpdDur := MpdStreamDuration(structList, byteRange);
      mpdDur.Err? || mpdDur.value < requested
  {
    if requested < 0 then Err(Fatal("*** -streamDuration must be a positive number ***"))
    else if |structList| == 0 then Err(IndexOutOfRange)
    else match UrlParsing.GetRepresentationBaseURL(structList[0], 0)
      case Err(f) => Err(f)
      case Ok(baseURL) =>
        var isByteRangeMPD := baseURL != RepRateBaseURL;
        match MpdStreamDuration(structList, isByteRangeMPD)
        case Err(f) => Err(f)
        case Ok(mpdStreamDuration) =>
          if mpdStreamDuration < requested then
            Err(Fatal("*** -streamDuration must not be larger than the maximum MPD stream duration ***"))
          else if requested == 0 then Ok(StreamSetting(mpdStreamDuration * Conversion1000, isByteRangeMPD))
          else Ok(StreamSetting(requested * Conversion1000, isByteRangeMPD))
  }

  /** The stream never runs longer than the MPD, and a request is honoured to the millisecond. */
  lemma StreamDurationWithinMpd(structList: seq<MpdParsing.MPD>, requested: int)
    requires StreamDuration(structList, requested).Ok?
    ensures var s := StreamDuration(structList, requested).value;
      var mpdDur := MpdStreamDuration(structList, s.isByteRangeMPD).value;
      0 <= s.streamDurationMs <= mpdDur * Conversion1000 &&
      (requested > 0 ==> s.streamDurationMs == requested * Conversion1000)
  {
  }

  // ---------------------------------------------------------------- flag validation

  /** The settings main.go validates, as given on the command line or in the configuration. */
  datatype Flags = Flags(
    adapt: string,
    maxHeight: int,
    streamDuration: int,
    maxBuffer: int,
    initBuffer: int,
    codec: string,
    hls: string,
    storeFiles: string,
    collabPrintOn: bool,
    onlyAudio: bool)

  /** What the checks leave behind: the stream setting and the two booleans they set. */
  datatype Settings = Settings(stream: StreamSetting, hlsBool: bool, saveFilesBool: bool)

  /** The checks of main.go in their order; the first failing one is fatal. */
  function Validated(flags: Flags, structList: seq<MpdParsing.MPD>): (r: Result<Settings>)
  {
    if flags.adapt !in algorithmSlice then Err(Fatal("*** -adapt must be one of the algorithms ***"))
    else if flags.maxHeight < 1 then Err(Fatal("*** -maxHeight must be a positive number ***"))
    else match StreamDuration(structList, flags.streamDuration)
      case Err(f) => Err(f)
      case Ok(stream) =>
        if flags.maxBuffer < 1 then Err(Fatal("*** -maxBuffer must be a positive number (in seconds) ***"))
        else if flags.initBuffer < 0 then Err(Fatal("*** -initBuffer must be a positive number ***"))
        else if flags.codec !in codecSlice then Err(Fatal("*** -codec must be one of the codecs ***"))
        else if flags.hls !in hlsSlice then Err(Fatal("*** -hls must be either off or on ***"))
        else if flags.storeFiles !in storeFilesSlice then Err(Fatal("*** -storeDASH must be either off or on ***"))
        else
          var hlsBool := flags.hls != "off" && !flags.onlyAudio;
          var saveFilesBool := flags.storeFiles != "off" || flags.collabPrintOn;
          Ok(Settings(stream, hlsBool, saveFilesBool))
  }

  /**
   * The checks pass exactly when the algorithm, codec, hls and store values
   * are known, the height and buffer are at least 1, the initial buffer is
   * not negative and the stream duration is accepted; each failing numeric
   * check is fatal. HLS is on exactly when asked for and the stream is not
   * audio only; files are saved when asked for or when collaborating.
   */
  lemma ValidatedMeaning(flags: Flags, structList: seq<MpdParsing.MPD>)
    ensures var r := Validated(flags, structList);
      (r.Ok? <==> flags.adapt in algorithmSlice && flags.maxHeight >= 1 &&
                  StreamDuration(structList, flags.streamDuration).Ok? &&
                  flags.maxBuffer >= 1 && flags.initBuffer >= 0 && flags.codec in codecSlice &&
                  flags.hls in hlsSlice && flags.storeFiles in storeFilesSlice) &&
      ((flags.adapt !in algorithmSlice || flags.maxHeight < 1 || flags.streamDuration < 0) ==>
         r.Err? && r.failure.Fatal?) &&
      ((StreamDuration(structList, flags.streamDuration).Ok? && (flags.maxBuffer < 1 || flags.initBuffer < 0)) ==>
         r.Err? && r.failure.Fatal?) &&
      (r.Ok? ==>
         r.value.stream == StreamDuration(structList, flags.streamDuration).value &&
         (r.value.hlsBool <==> flags.hls == "on" && !flags.onlyAudio) &&
         (r.value.saveFilesBool <==> flags.storeFiles == "on" || flags.collabPrintOn))
  {
  }

  /**
   * The flag checks of main.go as it runs them: membership through
   * FindInStringArray, each failure fatal, then the booleans and the stream
   * duration that the checks set.
   */
  method CheckFlags(flags: Flags, structList: seq<MpdParsing.MPD>) returns (r: Result<Settings>)
    ensures r == Validated(flags, structList)
  {
    var usedAlgorithm, _ := AppFunctions.FindInStringArray(algorithmSlice, flags.adapt);
    if !usedAlgorithm {
      return Err(Fatal("*** -adapt must be one of the algorithms ***"));
    }
    if flags.maxHeight < 1 {
      return Err(Fatal("*** -maxHeight must be a positive number ***"));
    }
    var stream := StreamDuration(structList, flags.streamDuration);
    if stream.Err? {
      return Err(stream.failure);
    }
    if flags.maxBuffer < 1 {
      return Err(Fatal("*** -maxBuffer must be a positive number (in seconds) ***"));
    }
    if flags.initBuffer < 0 {
      return Err(Fatal("*** -initBuffer must be a positive number ***"));
    }
    var usedCodec, _ := AppFunctions.FindInStringArray(codecSlice, flags.codec);
    if !usedCodec {
      return Err(Fatal("*** -codec must be one of the codecs ***"));
    }
    var hlsBool := false;
    var usedHLS, _ := AppFunctions.FindInStringArray(hlsSlice, flags.hls);
    if !usedHLS {
      return Err(Fatal("*** -hls must be either off or on ***"));
    } else if flags.hls != "off" && !flags.onlyAudio {
      hlsBool := true;
    }
    var saveFilesBool := false;
    var usedFileSave, _ := AppFunctions.FindInStringArray(storeFilesSlice, flags.storeFiles);
    if !usedFileSave {
      return Err(Fatal("*** -storeDASH must be either off or on ***"));
    } else if flags.storeFiles != "off" {
      saveFilesBool := true;
    }
    if flags.collabPrintOn {
      saveFilesBool := true;
    }
    return Ok(Settings(stream.value, hlsBool, saveFilesBool));
  }
}
