/**
 * The manifest-derived arithmetic and string helpers of http/mpdParsing.go,
 * on a cut-down MPD value (periods, adaptation sets, representations with
 * their bandwidth, height, codecs, segment template and segment list)
 * instead of XML. Slice and index expressions that Go would panic on are
 * `Err(IndexOutOfRange)` here; `StopApp` and `os.Exit` are `Err(Fatal(..))`.
 */
module MpdParsing {
  import opened Wrappers
  import opened GoNum
  import opened GoStrings

  const Conversion1000: int := 1000

  /** The codec class names of the encoder constants, and the audio class the code compares with. */
  const RepRateCodecAVC: string := "h264"
  const RepRateCodecHEVC: string := "h265"
  const RepRateCodecVP9: string := "VP9"
  const RepRateCodecAV1: string := "AV1"
  const RepRateCodecAudio: string := "Audio/MP4"

  datatype SegmentTemplate = SegmentTemplate(media: string, timescale: int, duration: int, initialization: string)

  /** A SegmentList: its timing and the mediaRange of each SegmentURL. */
  datatype SegmentList = SegmentList(timescale: int, duration: int, mediaRanges: seq<string>)

  datatype Representation = Representation(
    id: string,
    codecs: string,
    width: int,
    height: int,
    frameRate: int,
    bandWidth: int,
    baseURL: string,
    segmentTemplate: SegmentTemplate,
    segmentList: SegmentList)

  datatype AdaptationSet = AdaptationSet(
    baseURL: string,
    representation: seq<Representation>,
    segmentTemplate: seq<SegmentTemplate>)

  datatype Period = Period(adaptationSet: seq<AdaptationSet>)

  datatype MPD = MPD(mediaPresentationDuration: string, maxSegmentDuration: string, periods: seq<Period>)

  // ---------------------------------------------------------------- access

  /** `mpd.Periods[0].AdaptationSet[k]` */
  function AdaptationSetAt(mpd: MPD, k: int): (r: Result<AdaptationSet>)
    ensures r.Ok? <==> |mpd.periods| > 0 && 0 <= k < |mpd.periods[0].adaptationSet|
    ensures r.Ok? ==> r.value == mpd.periods[0].adaptationSet[k]
    ensures r.Err? ==> r.failure == IndexOutOfRange
  {
    if |mpd.periods| > 0 && 0 <= k < |mpd.periods[0].adaptationSet| then Ok(mpd.periods[0].adaptationSet[k])
    else Err(IndexOutOfRange)
  }

  /** `mpd.Periods[0].AdaptationSet[k].Representation` */
  function Representations(mpd: MPD, k: int): (r: Result<seq<Representation>>)
    ensures r.Ok? <==> AdaptationSetAt(mpd, k).Ok?
    ensures r.Ok? ==> r.value == AdaptationSetAt(mpd, k).value.representation
    ensures r.Err? ==> r.failure == IndexOutOfRange
  {
    match AdaptationSetAt(mpd, k)
    case Ok(a) => Ok(a.representation)
    case Err(f) => Err(f)
  }

  // ---------------------------------------------------------------- getPlayableSegmentMPDindex

  /**
   * MPD i can supply the next segment when its segment duration divides the
   * last segment duration or the time streamed so far, and one more of its
   * segments still fits in the stream duration.
   */
  predicate Usable(segmentDurations: seq<int>, i: int, lastSegmentDuration: int, totalSegmentDuration: int,
                   streamDuration: int)
    requires 0 <= i < |segmentDurations| && segmentDurations[i] != 0
  {
    (Rem(lastSegmentDuration, segmentDurations[i] * Conversion1000) == 0 ||
     Rem(totalSegmentDuration, segmentDurations[i] * Conversion1000) == 0) &&
    totalSegmentDuration + segmentDurations[i] * Conversion1000 <= streamDuration
  }

  predicate NoZeroUpTo(segmentDurations: seq<int>, n: int)
  {
    n <= |segmentDurations| && forall i :: 0 <= i < n ==> segmentDurations[i] != 0
  }

  /**
   * The usable MPD indexes among the first n, ascending, paired with the
   * segment number each would stream next.
   */
  function PlayableUpTo(segmentDurations: seq<int>, lastSegmentDuration: int, totalSegmentDuration: int,
                        streamDuration: int, n: nat): (p: (seq<int>, seq<int>))
    requires NoZeroUpTo(segmentDurations, n)
    ensures |p.0| == |p.1| <= n
  {
    if n == 0 then ([], [])
    else
      var p := PlayableUpTo(segmentDurations, lastSegmentDuration, totalSegmentDuration, streamDuration, n - 1);
      if Usable(segmentDurations, n - 1, lastSegmentDuration, totalSegmentDuration, streamDuration) then
        (p.0 + [n - 1], p.1 + [Quo(totalSegmentDuration, segmentDurations[n - 1] * Conversion1000) + 1])
      else p
  }

  /**
   * The playable list holds exactly the usable indexes below n, in
   * ascending order, each with the segment number it would stream next.
   */
  lemma {:induction false} PlayableCharacterised(segmentDurations: seq<int>, lastSegmentDuration: int,
                                                 totalSegmentDuration: int, streamDuration: int, n: nat)
    requires NoZeroUpTo(segmentDurations, n)
    ensures var p := PlayableUpTo(segmentDurations, lastSegmentDuration, totalSegmentDuration, streamDuration, n);
      (forall k :: 0 <= k < |p.0| ==>
         0 <= p.0[k] < n &&
         Usable(segmentDurations, p.0[k], lastSegmentDuration, totalSegmentDuration, streamDuration) &&
         p.1[k] == Quo(totalSegmentDuration, segmentDurations[p.0[k]] * Conversion1000) + 1) &&
      (forall k, l :: 0 <= k < l < |p.0| ==> p.0[k] < p.0[l]) &&
      (forall i :: 0 <= i < n ==>
         (Usable(segmentDurations, i, lastSegmentDuration, totalSegmentDuration, streamDuration) <==> i in p.0))
  {
    if n > 0 {
      PlayableCharacterised(segmentDurations, lastSegmentDuration, totalSegmentDuration, streamDuration, n - 1);
    }
  }

  /** getPlayableSegmentMPDindex; a zero segment duration is Go's division-by-zero panic. */
  method GetPlayableSegmentMPDindex(segmentDurations: seq<int>, lastSegmentDuration: int, totalSegmentDuration: int,
                                    streamDuration: int)
    returns (r: Result<(seq<int>, seq<int>)>)
    ensures r.Err? <==> !NoZeroUpTo(segmentDurations, |segmentDurations|)
    ensures r.Err? ==> r.failure == DivideByZero
    ensures r.Ok? ==> r.value == PlayableUpTo(segmentDurations, lastSegmentDuration, totalSegmentDuration,
                                              streamDuration, |segmentDurations|)
  {
    var usableSegmentDurations: seq<int> := [];
    var usableSegmentNumbers: seq<int> := [];
    var i := 0;
    while i < |segmentDurations|
      invariant 0 <= i <= |segmentDurations|
      invariant NoZeroUpTo(segmentDurations, i)
      invariant (usableSegmentDurations, usableSegmentNumbers)
             == PlayableUpTo(segmentDurations, lastSegmentDuration, totalSegmentDuration, streamDuration, i)
    {
      if segmentDurations[i] * Conversion1000 == 0 {
        return Err(DivideByZero);
      }
      if Rem(lastSegmentDuration, segmentDurations[i] * Conversion1000) == 0 ||
         Rem(totalSegmentDuration, segmentDurations[i] * Conversion1000) == 0 {
        if totalSegmentDuration + segmentDurations[i] * Conversion1000 <= streamDuration {
          usableSegmentDurations := usableSegmentDurations + [i];
          usableSegmentNumbers := usableSegmentNumbers + [Quo(totalSegmentDuration, segmentDurations[i] * Conversion1000) + 1];
        }
      }
      i := i + 1;
    }
    return Ok((usableSegmentDurations, usableSegmentNumbers));
  }

  // ---------------------------------------------------------------- GetNextSegmentDuration

  datatype NextSegment = NextSegment(stopApp: bool, mpdIndex: int, nextSegmentNumber: int)

  /**
   * GetNextSegmentDuration: stop when no MPD is usable; otherwise the usable
   * MPD at position `pick mod count` and its segment number. `pick` stands
   * for `rand.Int()`.
   */
  function GetNextSegmentDuration(segmentDurations: seq<int>, lastSegmentDuration: int, totalSegmentDuration: int,
                                  streamDuration: int, pick: nat): (r: Result<NextSegment>)
    ensures r.Err? <==> !NoZeroUpTo(segmentDurations, |segmentDurations|)
    ensures r.Ok? ==>
      var p := PlayableUpTo(segmentDurations, lastSegmentDuration, totalSegmentDuration, streamDuration,
                            |segmentDurations|);
      (r.value.stopApp <==> |p.0| == 0) &&
      (r.value.stopApp ==> r.value.mpdIndex == 0 && r.value.nextSegmentNumber == 0) &&
      (!r.value.stopApp ==>
         r.value.mpdIndex == p.0[pick % |p.0|] && r.value.nextSegmentNumber == p.1[pick % |p.0|])
  {
    if !NoZeroUpTo(segmentDurations, |segmentDurations|) then Err(DivideByZero)
    else
      var p := PlayableUpTo(segmentDurations, lastSegmentDuration, totalSegmentDuration, streamDuration,
                            |segmentDurations|);
      if |p.0| > 0 then
        var r := pick % |p.0|;
        Ok(NextSegment(false, p.0[r], p.1[r]))
      else Ok(NextSegment(true, 0, 0))
  }

  /**
   * When the stream goes on, the chosen MPD is usable and the segment number
   * continues its own numbering from the time streamed so far; the stream
   * stops exactly when no MPD is usable.
   */
  lemma NextSegmentUsable(segmentDurations: seq<int>, lastSegmentDuration: int, totalSegmentDuration: int,
                          streamDuration: int, pick: nat)
    requires NoZeroUpTo(segmentDurations, |segmentDurations|)
    ensures var r := GetNextSegmentDuration(segmentDurations, lastSegmentDuration, totalSegmentDuration,
                                            streamDuration, pick).value;
      (!r.stopApp ==>
         0 <= r.mpdIndex < |segmentDurations| &&
         Usable(segmentDurations, r.mpdIndex, lastSegmentDuration, totalSegmentDuration, streamDuration) &&
         r.nextSegmentNumber == Quo(totalSegmentDuration, segmentDurations[r.mpdIndex] * Conversion1000) + 1) &&
      (r.stopApp <==> forall i :: 0 <= i < |segmentDurations| ==>
         !Usable(segmentDurations, i, lastSegmentDuration, totalSegmentDuration, streamDuration))
  {
    var p := PlayableUpTo(segmentDurations, lastSegmentDuration, totalSegmentDuration, streamDuration,
                          |segmentDurations|);
    PlayableCharacterised(segmentDurations, lastSegmentDuration, totalSegmentDuration, streamDuration,
                          |segmentDurations|);
    if |p.0| > 0 {
      assert Usable(segmentDurations, p.0[0], lastSegmentDuration, totalSegmentDuration, streamDuration);
    }
  }

  // ---------------------------------------------------------------- GetCodec

  /** The codec class of a codecs attribute: the first family it mentions. */
  function CodecClass(codecs: string): string
  {
    if Contains(codecs, "avc") then RepRateCodecAVC
    else if Contains(codecs, "hev") then RepRateCodecHEVC
    else if Contains(codecs, "hvc1") then RepRateCodecHEVC
    else if Contains(codecs, "vp") then RepRateCodecVP9
    else if Contains(codecs, "av1") then RepRateCodecAV1
    else if Contains(codecs, "mp4a") then RepRateCodecAudio
    else if Contains(codecs, "ac-3") then RepRateCodecAudio
    else "Unknown"
  }

  /**
   * A codecs attribute is audio exactly when it names no video family and
   * names mp4a or ac-3; it is unknown exactly when it names none of them;
   * "avc" wins over every other family.
   */
  lemma CodecClassCases(codecs: string)
    ensures Contains(codecs, "avc") ==> CodecClass(codecs) == RepRateCodecAVC
    ensures CodecClass(codecs) == RepRateCodecAudio <==>
      !Contains(codecs, "avc") && !Contains(codecs, "hev") && !Contains(codecs, "hvc1") &&
      !Contains(codecs, "vp") && !Contains(codecs, "av1") &&
      (Contains(codecs, "mp4a") || Contains(codecs, "ac-3"))
    ensures CodecClass(codecs) == "Unknown" <==>
      !Contains(codecs, "avc") && !Contains(codecs, "hev") && !Contains(codecs, "hvc1") &&
      !Contains(codecs, "vp") && !Contains(codecs, "av1") && !Contains(codecs, "mp4a") && !Contains(codecs, "ac-3")
  {
  }

  /** The class of adaptation set j, read from its first representation. */
  function SetClass(sets: seq<AdaptationSet>, j: int): string
    requires 0 <= j < |sets| && |sets[j].representation| > 0
  {
    CodecClass(sets[j].representation[0].codecs)
  }

  predicate AllRepresented(sets: seq<AdaptationSet>)
  {
    forall j :: 0 <= j < |sets| ==> |sets[j].representation| > 0
  }

  /** The index GetCodec records for adaptation set j of class `cls`: j when it matches the codec or is audio. */
  function CodecIndex(cls: string, codec: string, j: int): int
  {
    if cls == codec || cls == RepRateCodecAudio then j else -1
  }

  /** The rows GetCodec builds for one MPD: the class and index of each adaptation set. */
  predicate CodecRow(sets: seq<AdaptationSet>, codec: string, codecList: seq<string>, codecIndexList: seq<int>)
  {
    AllRepresented(sets) && |codecList| == |sets| && |codecIndexList| == |sets| &&
    forall j :: 0 <= j < |sets| ==>
      codecList[j] == SetClass(sets, j) && codecIndexList[j] == CodecIndex(codecList[j], codec, j)
  }

  /** The inner loop of GetCodec over one MPD's adaptation sets; audio when any set is audio. */
  method CodecsOf(sets: seq<AdaptationSet>, codec: string)
    returns (r: Result<(seq<string>, seq<int>, bool)>)
    ensures r.Err? <==> !AllRepresented(sets)
    ensures r.Ok? ==>
      CodecRow(sets, codec, r.value.0, r.value.1) && (r.value.2 <==> RepRateCodecAudio in r.value.0)
  {
    var codecList: seq<string> := [];
    var codecIndexList: seq<int> := [];
    var audioContent := false;
    var j := 0;
    while j < |sets|
      invariant 0 <= j <= |sets|
      invariant CodecRow(sets[..j], codec, codecList, codecIndexList)
      invariant audioContent <==> RepRateCodecAudio in codecList
    {
      if |sets[j].representation| == 0 {
        assert !AllRepresented(sets);
        return Err(IndexOutOfRange);
      }
      var mpdCodec := sets[j].representation[0].codecs;
      var repRateCodec := CodecClass(mpdCodec);
      if repRateCodec == RepRateCodecAudio {
        audioContent := true;
      }
      if repRateCodec == codec || repRateCodec == RepRateCodecAudio {
        codecList := codecList + [repRateCodec];
        codecIndexList := codecIndexList + [j];
      } else {
        codecList := codecList + [repRateCodec];
        codecIndexList := codecIndexList + [-1];
      }
      assert sets[..j + 1][..j] == sets[..j];
      j := j + 1;
    }
    assert sets[..j] == sets;
    return Ok((codecList, codecIndexList, audioContent));
  }

  /** An MPD GetCodec can read: it has a period, and each adaptation set a representation. */
  predicate Readable(mpd: MPD)
  {
    |mpd.periods| > 0 && AllRepresented(mpd.periods[0].adaptationSet)
  }

  /**
   * GetCodec: the codec rows of every MPD, and whether any adaptation set
   * of any MPD is audio.
   */
  method GetCodec(mpdList: seq<MPD>, codec: string)
    returns (r: Result<(seq<seq<string>>, seq<seq<int>>, bool)>)
    ensures r.Err? <==> exists i :: 0 <= i < |mpdList| && !Readable(mpdList[i])
    ensures r.Ok? ==>
      |r.value.0| == |mpdList| && |r.value.1| == |mpdList| &&
      (forall i :: 0 <= i < |mpdList| ==>
         Readable(mpdList[i]) && CodecRow(mpdList[i].periods[0].adaptationSet, codec, r.value.0[i], r.value.1[i])) &&
      (r.value.2 <==> exists i :: 0 <= i < |mpdList| && RepRateCodecAudio in r.value.0[i])
  {
    var tempCodecList: seq<seq<string>> := [];
    var tempIndexList: seq<seq<int>> := [];
    var audioContent := false;
    var i := 0;
    while i < |mpdList|
      invariant 0 <= i <= |mpdList|
      invariant |tempCodecList| == i && |tempIndexList| == i
      invariant forall m :: 0 <= m < i ==>
        Readable(mpdList[m]) && CodecRow(mpdList[m].periods[0].adaptationSet, codec, tempCodecList[m], tempIndexList[m])
      invariant audioContent <==> exists m :: 0 <= m < i && RepRateCodecAudio in tempCodecList[m]
    {
      if |mpdList[i].periods| == 0 {
        return Err(IndexOutOfRange);
      }
      var row := CodecsOf(mpdList[i].periods[0].adaptationSet, codec);
      if row.Err? {
        return Err(row.failure);
      }
      var (codecList, codecIndexList, audio) := row.value;
      if audio {
        audioContent := true;
      }
      tempCodecList := tempCodecList + [codecList];
      tempIndexList := tempIndexList + [codecIndexList];
      i := i + 1;
    }
    return Ok((tempCodecList, tempIndexList, audioContent));
  }

  // ---------------------------------------------------------------- GetNextSegment / byte ranges

  /** GetNextSegment: the representation's template media with every `$Number$` replaced by the segment number. */
  function GetNextSegment(mpd: MPD, segNumber: int, segQuality: int, currentMPDRepAdaptSet: int): (r: Result<string>)
    ensures r.Ok? <==> Representations(mpd, currentMPDRepAdaptSet).Ok? &&
                       0 <= segQuality < |Representations(mpd, currentMPDRepAdaptSet).value|
  {
    match Representations(mpd, currentMPDRepAdaptSet)
    case Err(f) => Err(f)
    case Ok(reps) =>
      if !(0 <= segQuality < |reps|) then Err(IndexOutOfRange)
      else Ok(Replace(reps[segQuality].segmentTemplate.media, "$Number$", Itoa(segNumber)))
  }

  /** A string without '$' holds no `$Number$` identifier. */
  lemma NoDollarNoIdentifier(s: string)
    requires '$' !in s
    ensures Index(s, "$Number$") == -1
  {
    forall r | 0 <= r <= |s|
      ensures !OccursAt(s, "$Number$", r)
    {
      if r + 8 <= |s| {
        assert s[r..r + 8][0] == s[r];
      }
    }
    IndexNone(s, "$Number$");
  }

  /**
   * A template with one `$Number$` between two '$'-free parts becomes the
   * two parts around the decimal segment number (ISO/IEC 23009-1 section
   * 5.3.9.4.4, the $Number$ identifier without a format tag).
   */
  lemma TemplateNumberSubstituted(prefix: string, suffix: string, n: int)
    requires '$' !in prefix && '$' !in suffix
    ensures Replace(prefix + "$Number$" + suffix, "$Number$", Itoa(n)) == prefix + Itoa(n) + suffix
  {
    var s := prefix + "$Number$" + suffix;
    var pat := "$Number$";
    assert OccursAt(s, pat, |prefix|) by { assert s[|prefix|..|prefix| + 8] == pat; }
    forall i | 0 <= i < |prefix|
      ensures !OccursAt(s, pat, i)
    {
      if i + 8 <= |s| {
        assert s[i..i + 8][0] == s[i] == prefix[i];
      }
    }
    IndexAt(s, pat, |prefix|);
    var k := Index(s, pat);
    assert s[..k] == prefix;
    assert s[k + 8..] == suffix;
    NoDollarNoIdentifier(suffix);
  }

  /**
   * splitByteRange: the two integers of an "a-b" media range; a non-integer
   * part is fatal, and a range without '-' is the index panic on the second
   * part.
   */
  function SplitByteRange(byteRange: string): (r: Result<(int, int)>)
    ensures r.Ok? ==>
      |Split(byteRange, '-')| >= 2 &&
      Atoi(Split(byteRange, '-')[0]) == Some(r.value.0) && Atoi(Split(byteRange, '-')[1]) == Some(r.value.1)
    ensures Atoi(Split(byteRange, '-')[0]).None? ==> r.Err? && r.failure.Fatal?
    ensures (|Split(byteRange, '-')| >= 2 && Atoi(Split(byteRange, '-')[0]).Some? &&
             Atoi(Split(byteRange, '-')[1]).None?) ==> r.Err? && r.failure.Fatal?
    ensures |Split(byteRange, '-')| < 2 && Atoi(Split(byteRange, '-')[0]).Some? ==> r == Err(IndexOutOfRange)
  {
    var s := Split(byteRange, '-');
    match Atoi(s[0])
    case None => Err(Fatal("*** Problem with converting Byte Range to int ***"))
    case Some(startRange) =>
      if |s| < 2 then Err(IndexOutOfRange)
      else match Atoi(s[1])
        case None => Err(Fatal("*** Problem with converting Byte Range to int ***"))
        case Some(endRange) => Ok((startRange, endRange))
  }

  /** The decimal form of a non-negative number has no '-'. */
  lemma NoMinusInNatural(n: int)
    requires n >= 0
    ensures '-' !in Itoa(n)
  {
    assert AllDigits(Itoa(n));
  }

  /** "a-b" for two non-negative numbers splits back into (a, b). */
  lemma ByteRangeRoundTrip(a: int, b: int)
    requires a >= 0 && b >= 0
    ensures SplitByteRange(Itoa(a) + "-" + Itoa(b)) == Ok((a, b))
  {
    NoMinusInNatural(a);
    NoMinusInNatural(b);
    SplitPrefix(Itoa(a), Itoa(b), '-');
    assert Itoa(a) + "-" + Itoa(b) == Itoa(a) + ['-'] + Itoa(b);
    AtoiItoa(a);
    AtoiItoa(b);
  }

  /** GetNextByteRangeURL: the representation's base URL and the byte range of segment `segNumber`. */
  function GetNextByteRangeURL(mpd: MPD, segNumber: int, segQuality: int, currentMPDRepAdaptSet: int)
    : (r: Result<(string, int, int)>)
    ensures r.Ok? ==>
      Representations(mpd, currentMPDRepAdaptSet).Ok? &&
      0 <= segQuality < |Representations(mpd, currentMPDRepAdaptSet).value| &&
      var rep := Representations(mpd, currentMPDRepAdaptSet).value[segQuality];
      0 <= segNumber - 1 < |rep.segmentList.mediaRanges| &&
      r.value.0 == rep.baseURL &&
      SplitByteRange(rep.segmentList.mediaRanges[segNumber - 1]) == Ok((r.value.1, r.value.2))
  {
    match Representations(mpd, currentMPDRepAdaptSet)
    case Err(f) => Err(f)
    case Ok(reps) =>
      if !(0 <= segQuality < |reps|) then Err(IndexOutOfRange)
      else
        var rep := reps[segQuality];
        if !(0 <= segNumber - 1 < |rep.segmentList.mediaRanges|) then Err(IndexOutOfRange)
        else match SplitByteRange(rep.segmentList.mediaRanges[segNumber - 1])
          case Err(f) => Err(f)
          case Ok(range) => Ok((rep.baseURL, range.0, range.1))
  }

  // ---------------------------------------------------------------- the quality ceiling

  predicate Eligible(reps: seq<Representation>, j: int, maxHeight: int)
    requires 0 <= j < |reps|
  {
    reps[j].height <= maxHeight && reps[j].bandWidth > 0
  }

  /**
   * The running maximum of GetMPDheightIndex over the first n
   * representations: (one more than the best index, or 0; its bandwidth, or 0).
   */
  function HeightScan(reps: seq<Representation>, maxHeight: int, n: nat): (s: (int, int))
    requires n <= |reps|
    ensures s.0 == 0 <==> forall j :: 0 <= j < n ==> !Eligible(reps, j, maxHeight)
    ensures s.0 == 0 ==> s.1 == 0
    ensures s.1 >= 0
    ensures forall j :: 0 <= j < n && reps[j].height <= maxHeight ==> reps[j].bandWidth <= s.1
    ensures s.0 != 0 ==>
      1 <= s.0 <= n && Eligible(reps, s.0 - 1, maxHeight) && reps[s.0 - 1].bandWidth == s.1 &&
      (forall j :: 0 <= j < s.0 - 1 && reps[j].height <= maxHeight ==> reps[j].bandWidth < s.1)
  {
    if n == 0 then (0, 0)
    else
      var s := HeightScan(reps, maxHeight, n - 1);
      if reps[n - 1].height <= maxHeight && reps[n - 1].bandWidth > s.1 then
        assert Eligible(reps, n - 1, maxHeight);
        (n, reps[n - 1].bandWidth)
      else
        assert s.0 == 0 ==> !Eligible(reps, n - 1, maxHeight);
        s
  }

  /**
   * The index of the greatest bandwidth among the representations no
   * taller than maxHeight, the first on ties, or -1 when none has a
   * positive bandwidth.
   */
  function HeightIndex(reps: seq<Representation>, maxHeight: int): (i: int)
    ensures -1 <= i < |reps|
    ensures i == -1 <==> forall j :: 0 <= j < |reps| ==> !Eligible(reps, j, maxHeight)
    ensures i >= 0 ==>
      Eligible(reps, i, maxHeight) &&
      (forall j :: 0 <= j < |reps| && reps[j].height <= maxHeight ==> reps[j].bandWidth <= reps[i].bandWidth) &&
      (forall j :: 0 <= j < i && reps[j].height <= maxHeight ==> reps[j].bandWidth < reps[i].bandWidth)
  {
    HeightScan(reps, maxHeight, |reps|).0 - 1
  }

  /** GetMPDheightIndex */
  method GetMPDheightIndex(mpd: MPD, maxHeight: int, currentMPDRepAdaptSet: int) returns (r: Result<int>)
    ensures r.Err? <==> Representations(mpd, currentMPDRepAdaptSet).Err?
    ensures r.Ok? ==> r.value == HeightIndex(Representations(mpd, currentMPDRepAdaptSet).value, maxHeight)
  {
    var got := Representations(mpd, currentMPDRepAdaptSet);
    if got.Err? {
      return Err(got.failure);
    }
    var reps := got.value;
    var maxHeightIndex := 0;
    var bitrate := 0;
    var j := 0;
    while j < |reps|
      invariant 0 <= j <= |reps|
      invariant (maxHeightIndex, bitrate) == HeightScan(reps, maxHeight, j)
    {
      if reps[j].height <= maxHeight {
        if reps[j].bandWidth > bitrate {
          bitrate := reps[j].bandWidth;
          maxHeightIndex := j + 1;
        }
      }
      j := j + 1;
    }
    return Ok(maxHeightIndex - 1);
  }

  /** GetMaxListIndex: the index of the last representation. */
  function GetMaxListIndex(mpd: MPD, currentMPDRepAdaptSet: int): (r: Result<int>)
    ensures r.Ok? <==> Representations(mpd, currentMPDRepAdaptSet).Ok?
    ensures r.Ok? ==> r.value + 1 == |Representations(mpd, currentMPDRepAdaptSet).value|
  {
    match Representations(mpd, currentMPDRepAdaptSet)
    case Err(f) => Err(f)
    case Ok(reps) => Ok(|reps| - 1)
  }

  /** The bandwidths of a representation list, in order. */
  function Bandwidths(reps: seq<Representation>): (bw: seq<int>)
    ensures |bw| == |reps| && forall i :: 0 <= i < |reps| ==> bw[i] == reps[i].bandWidth
  {
    seq(|reps|, i requires 0 <= i < |reps| => reps[i].bandWidth)
  }

  /** GetRepresentationBandwidth */
  method GetRepresentationBandwidth(mpd: MPD, currentMPDRepAdaptSet: int) returns (r: Result<seq<int>>)
    ensures r.Err? <==> Representations(mpd, currentMPDRepAdaptSet).Err?
    ensures r.Ok? ==> r.value == Bandwidths(Representations(mpd, currentMPDRepAdaptSet).value)
  {
    var got := Representations(mpd, currentMPDRepAdaptSet);
    if got.Err? {
      return Err(got.failure);
    }
    var reps := got.value;
    var bandwithList: seq<int> := [];
    var i := 0;
    while i < |reps|
      invariant 0 <= i <= |reps|
      invariant |bandwithList| == i && forall k :: 0 <= k < i ==> bandwithList[k] == reps[k].bandWidth
    {
      bandwithList := bandwithList + [reps[i].bandWidth];
      i := i + 1;
    }
    return Ok(bandwithList);
  }

  // ---------------------------------------------------------------- SplitMPDSegmentDuration

  /** A string holds the one-character string [c] iff it holds c. */
  lemma ContainsChar(s: string, c: char)
    ensures Contains(s, [c]) <==> c in s
  {
    forall i | 0 <= i < |s|
      ensures OccursAt(s, [c], i) <==> s[i] == c
    {
      assert s[i..i + 1] == [s[i]];
    }
    IndexFirst(s, [c]);
  }

  /** The first piece of a split starts with the string's first character when that is not the separator. */
  lemma SplitFirstChar(s: string, sep: char)
    requires |s| > 0 && s[0] != sep
    ensures |Split(s, sep)[0]| > 0 && Split(s, sep)[0][0] == s[0]
  {
  }

  /**
   * SplitMPDSegmentDuration on the xs:duration subset the MPDs use
   * (XML Schema Part 2 section 3.2.6): with an hour part, "PT" is removed
   * and the hours count 3600 s each; a positive minute count then replaces
   * the running total instead of adding to it; the seconds are the integer
   * part before '.', 0 when that part does not parse. Without an hour part
   * the "PT" prefix stays, so the minute part does not parse, which is fatal.
   */
  function SplitMPDSegmentDuration(mpdSegDuration: string): (r: Result<int>)
  {
    match HoursPart(mpdSegDuration)
    case Err(f) => Err(f)
    case Ok((totalTimeinSeconds, streamDuration)) => MinutesPart(totalTimeinSeconds, streamDuration)
  }

  /**
   * The minute and second stages: a positive minute count replaces the
   * running total, then the seconds are added.
   */
  function MinutesPart(totalTimeinSeconds: int, streamDuration: string): Result<int>
  {
    var s := Split(streamDuration, 'M');
    match Atoi(s[0])
    case None => Err(Fatal("*** Problem with converting segment minutes to int ***"))
    case Some(i1) =>
      var total := if i1 > 0 then i1 * 60 else totalTimeinSeconds;
      if |s| < 2 then Err(IndexOutOfRange)
      else Ok(total + SecondsPart(s[1]))
  }

  /**
   * The hour stage: the seconds of the hours and the text after 'H' when
   * the duration without "PT" has an hour part, else 0 and the duration
   * without "PT0H".
   */
  function HoursPart(mpdSegDuration: string): Result<(int, string)>
  {
    HoursOf(Replace(mpdSegDuration, "PT", ""), mpdSegDuration)
  }

  /** The hour stage on the duration without "PT". */
  function HoursOf(streamDurationHMS: string, mpdSegDuration: string): Result<(int, string)>
  {
    if Contains(streamDurationHMS, "H") then
      var h := Split(streamDurationHMS, 'H');
      match Atoi(h[0])
      case None => Err(Fatal("*** Problem with converting segment hours to int ***"))
      case Some(i3) =>
        ContainsChar(streamDurationHMS, 'H');
        SplitCount(streamDurationHMS, 'H');
        Ok((if i3 > 0 then i3 * 60 * 60 else 0, h[1]))
    else Ok((0, Replace(mpdSegDuration, "PT0H", "")))
  }

  /** The seconds of a duration's tail: the integer part before '.', or 0 when that does not parse. */
  function SecondsPart(secs: string): int
  {
    match Atoi(Split(secs, '.')[0]) case Some(v) => v case None => 0
  }

  /** A string holding the separator splits into at least two pieces. */
  lemma {:induction false} SplitCount(s: string, sep: char)
    requires sep in s
    ensures |Split(s, sep)| >= 2
    decreases |s|
  {
    if s[0] != sep {
      SplitCount(s[1..], sep);
    }
  }

  /**
   * A duration "PT<rest>" without an hour part keeps its "PT" prefix, so
   * the minute part does not parse, which is fatal.
   */
  lemma NoHoursIsFatal(rest: string)
    requires 'H' !in rest && 'P' !in rest
    ensures SplitMPDSegmentDuration("PT" + rest).Err?
    ensures SplitMPDSegmentDuration("PT" + rest).failure.Fatal?
  {
    var d := "PT" + rest;
    PrefixStripped(rest);
    ContainsChar(rest, 'H');
    NoHourMarker(d);
    SplitFirstChar(d, 'M');
    var m := Split(d, 'M')[0];
    assert Atoi(m) == None by { assert m[0] == 'P' && !IsDigit(m[0]); }
  }

  /**
   * A duration "PT<h>H<m>M<secs>": the hours count 3600 s each, a positive
   * minute count replaces them by 60 s per minute, and the seconds part is
   * added.
   */
  lemma HoursMinutesSeconds(h: nat, m: nat, secs: string)
    requires 'H' !in secs && 'M' !in secs && 'P' !in secs
    ensures SplitMPDSegmentDuration("PT" + Itoa(h) + "H" + Itoa(m) + "M" + secs)
         == Ok((if m > 0 then m * 60 else if h > 0 then h * 3600 else 0) + SecondsPart(secs))
  {
    var tail := Itoa(m) + "M" + secs;
    var d := "PT" + Itoa(h) + "H" + Itoa(m) + "M" + secs;
    var hours := if h > 0 then h * 3600 else 0;
    assert HoursPart(d) == Ok((hours, tail)) by {
      assert d == "PT" + Itoa(h) + "H" + tail;
      DigitsOnly(m);
      HoursStage(h, tail);
    }
    StagesCompose(d, hours, tail);
    MinutesStage(hours, m, secs);
  }

  /** Once the hour stage is known, the duration is the minute stage on what it left. */
  lemma StagesCompose(d: string, hours: int, tail: string)
    requires HoursPart(d) == Ok((hours, tail))
    ensures SplitMPDSegmentDuration(d) == MinutesPart(hours, tail)
  {
  }

  /** A minute part "<m>M": a positive m gives m minutes in seconds, else the hours stay; then the seconds. */
  lemma MinutesStage(total: int, m: nat, secs: string)
    requires 'M' !in secs
    ensures MinutesPart(total, Itoa(m) + "M" + secs) == Ok((if m > 0 then m * 60 else total) + SecondsPart(secs))
  {
    var x := Itoa(m) + "M" + secs;
    assert Split(x, 'M') == [Itoa(m), secs] by {
      DigitsOnly(m);
      SplitPrefix(Itoa(m), secs, 'M');
    }
    assert Atoi(Itoa(m)) == Some(m) by {
      AtoiItoa(m);
    }
    MinutesOf(total, x, Itoa(m), m, secs);
  }

  /** The minute stage once the text is split into the minute figure and the rest. */
  lemma MinutesOf(total: int, x: string, figure: string, m: int, secs: string)
    requires Split(x, 'M') == [figure, secs] && Atoi(figure) == Some(m)
    ensures MinutesPart(total, x) == Ok((if m > 0 then m * 60 else total) + SecondsPart(secs))
  {
  }

  /** With an hour part "<h>H", the hour stage gives h hours in seconds and the text after 'H'. */
  lemma HoursStage(h: nat, tail: string)
    requires 'H' !in tail && 'P' !in tail
    ensures HoursPart("PT" + Itoa(h) + "H" + tail) == Ok((if h > 0 then h * 3600 else 0, tail))
  {
    var rest := Itoa(h) + "H" + tail;
    assert "PT" + Itoa(h) + "H" + tail == "PT" + rest;
    assert Replace("PT" + rest, "PT", "") == rest by {
      DigitsOnly(h);
      PrefixStripped(rest);
    }
    HoursOfDigits(h, tail, "PT" + rest);
  }

  lemma HoursOfDigits(h: nat, tail: string, d: string)
    requires 'H' !in tail
    ensures HoursOf(Itoa(h) + "H" + tail, d) == Ok((if h > 0 then h * 3600 else 0, tail))
  {
    var rest := Itoa(h) + "H" + tail;
    assert Contains(rest, "H") by {
      ContainsChar(rest, 'H');
      assert rest[|Itoa(h)|] == 'H';
    }
    assert Split(rest, 'H') == [Itoa(h), tail] by {
      DigitsOnly(h);
      SplitPrefix(Itoa(h), tail, 'H');
    }
    assert Atoi(Itoa(h)) == Some(h) by {
      AtoiItoa(h);
    }
  }

  /** The decimal form of a natural number is digits only. */
  lemma DigitsOnly(n: nat)
    ensures 'H' !in Itoa(n) && 'M' !in Itoa(n) && 'P' !in Itoa(n) && '.' !in Itoa(n) && 'S' !in Itoa(n)
    ensures |Itoa(n)| > 0 && IsDigit(Itoa(n)[0])
  {
    assert AllDigits(Itoa(n));
  }

  /** Seconds with a fractional part count their integer part. */
  lemma SecondsWithFraction(sec: nat, f: string)
    ensures SecondsPart(Itoa(sec) + "." + f) == sec
  {
    DigitsOnly(sec);
    SplitPrefix(Itoa(sec), f, '.');
    AtoiItoa(sec);
  }

  /** Seconds without a '.' keep their unit letter, do not parse, and count 0. */
  lemma SecondsWithoutFraction(sec: nat)
    ensures SecondsPart(Itoa(sec) + "S") == 0
  {
    DigitsOnly(sec);
    var p := Itoa(sec) + "S";
    assert '.' !in p;
    assert !AllDigits(p) by { assert p[|p| - 1] == 'S'; }
    assert p[0] == Itoa(sec)[0];
  }

  /** Removing "PT" from "PT<rest>" leaves rest when rest holds no 'P'. */
  lemma PrefixStripped(rest: string)
    requires 'P' !in rest
    ensures Replace("PT" + rest, "PT", "") == rest
  {
    var d := "PT" + rest;
    assert OccursAt(d, "PT", 0) by { assert d[..2] == "PT"; }
    IndexAt(d, "PT", 0);
    forall i | 0 <= i <= |rest|
      ensures !OccursAt(rest, "PT", i)
    {
      if i + 2 <= |rest| {
        assert rest[i..i + 2][0] == rest[i];
      }
    }
    IndexNone(rest, "PT");
    assert d[2..] == rest;
    assert Replace(d, "PT", "") == "" + "" + rest;
  }

  /** A string without 'H' holds no "PT0H", so removing it changes nothing. */
  lemma NoHourMarker(d: string)
    requires 'H' !in d
    ensures Replace(d, "PT0H", "") == d
  {
    forall r | 0 <= r <= |d|
      ensures !OccursAt(d, "PT0H", r)
    {
      if r + 4 <= |d| {
        assert d[r..r + 4][3] == d[r + 3];
      }
    }
    IndexNone(d, "PT0H");
  }

  // ---------------------------------------------------------------- URL lists

  /** URLList: strip trailing ']' and leading '[' characters, then split on ','. */
  function URLList(urlString: string): (r: seq<string>)
    ensures |r| >= 1
  {
    Split(TrimLeft(TrimRight(urlString, "]"), "["), ',')
  }

  /** A string without a trailing ']' is what TrimRight leaves of it followed by "]". */
  lemma TrimRightOne(s: string)
    requires |s| == 0 || s[|s| - 1] != ']'
    ensures TrimRight(s + "]", "]") == s
  {
    var t := s + "]";
    assert t[|t| - 1] == ']' && t[..|t| - 1] == s;
    assert TrimRight(t, "]") == TrimRight(s, "]");
  }

  lemma TrimLeftOne(s: string)
    requires |s| == 0 || s[0] != '['
    ensures TrimLeft("[" + s, "[") == s
  {
    var t := "[" + s;
    assert t[0] == '[' && t[1..] == s;
    assert TrimLeft(t, "[") == TrimLeft(s, "[");
  }

  /**
   * A bracketed, comma-separated list of URLs, none holding a comma, splits
   * back into those URLs when the list does not itself begin with '[' or end
   * with ']'.
   */
  lemma URLListRoundTrip(urls: seq<string>)
    requires |urls| >= 1 && forall k :: 0 <= k < |urls| ==> ',' !in urls[k]
    requires var j := Join(urls, ','); |j| == 0 || (j[0] != '[' && j[|j| - 1] != ']')
    ensures URLList("[" + Join(urls, ',') + "]") == urls
  {
    var j := Join(urls, ',');
    TrimRightOne("[" + j);
    assert "[" + j + "]" == ("[" + j) + "]";
    TrimLeftOne(j);
    SplitJoin(urls, ',');
  }

  /** ReadURLArray: the trimmed URL, or a fatal error when more than one is given; the fetch is not modelled. */
  function ReadURLArray(args: string): (r: Result<seq<string>>)
    ensures r.Err? <==> |URLList(args)| > 1
    ensures r.Ok? ==> r.value == [TrimSpace(URLList(args)[0])]
  {
    var urlInput := URLList(args);
    if |urlInput| > 1 then Err(Fatal("*** only one url can be passed to goDASH, please remove any additional URLs. Use -h for more info ***"))
    else Ok([TrimSpace(urlInput[0])])
  }

  /** Two or more comma-free URLs are rejected. */
  lemma ReadURLArrayRejectsLists(urls: seq<string>)
    requires |urls| >= 2 && forall k :: 0 <= k < |urls| ==> ',' !in urls[k]
    requires var j := Join(urls, ','); j[0] != '[' && j[|j| - 1] != ']'
    ensures ReadURLArray("[" + Join(urls, ',') + "]").Err?
  {
    URLListRoundTrip(urls);
  }

  // ---------------------------------------------------------------- segment details and MPD values

  /**
   * The segment duration in seconds of one MPD: from the SegmentList of the
   * first representation of adaptation set 0 for a byte-range MPD, else
   * from the SegmentTemplate of the first representation of adaptation set
   * `adaptIndex`, falling back to the set's first SegmentTemplate for a zero
   * duration or timescale, and to a timescale of 1.
   */
  function SegmentDurationOf(mpd: MPD, isByteRangeMPD: bool, adaptIndex: int): (r: Result<int>)
  {
    match AdaptationSetAt(mpd, if isByteRangeMPD then 0 else adaptIndex)
    case Err(f) => Err(f)
    case Ok(a) =>
      if |a.representation| == 0 then Err(IndexOutOfRange)
      else if isByteRangeMPD then
        var list := a.representation[0].segmentList;
        if list.timescale == 0 then Err(DivideByZero) else Ok(Quo(list.duration, list.timescale))
      else
        var template := a.representation[0].segmentTemplate;
        if (template.duration == 0 || template.timescale == 0) && |a.segmentTemplate| == 0 then Err(IndexOutOfRange)
        else
          var duration := if template.duration == 0 then a.segmentTemplate[0].duration else template.duration;
          var timeScale0 := if template.timescale == 0 then a.segmentTemplate[0].timescale else template.timescale;
          var timeScale := if timeScale0 == 0 then 1 else timeScale0;
          Ok(Quo(duration, timeScale))
  }

  /**
   * A segment duration is read from the first representation of an existing
   * adaptation set; when the representation's template lacks a duration or
   * timescale the set's own template must be there; every failure is a
   * runtime panic, never a fatal exit.
   */
  lemma SegmentDurationNeedsRepresentation(mpd: MPD, isByteRangeMPD: bool, adaptIndex: int)
    ensures var r := SegmentDurationOf(mpd, isByteRangeMPD, adaptIndex);
      var aset := AdaptationSetAt(mpd, if isByteRangeMPD then 0 else adaptIndex);
      (r.Err? ==> r.failure.Panic?) &&
      (r.Ok? ==>
         aset.Ok? && |aset.value.representation| > 0 &&
         (isByteRangeMPD ==> aset.value.representation[0].segmentList.timescale != 0) &&
         (!isByteRangeMPD && (aset.value.representation[0].segmentTemplate.duration == 0 ||
                              aset.value.representation[0].segmentTemplate.timescale == 0)
          ==> |aset.value.segmentTemplate| > 0))
  {
  }

  /** The segment durations of the first n MPDs, or the first failure among them. */
  function DurationsUpTo(mpds: seq<MPD>, isByteRangeMPD: bool, adaptIndex: int, n: nat): (r: Result<seq<int>>)
    requires n <= |mpds|
    ensures r.Ok? ==>
      |r.value| == n &&
      forall i :: 0 <= i < n ==> SegmentDurationOf(mpds[i], isByteRangeMPD, adaptIndex) == Ok(r.value[i])
    ensures r.Err? ==> exists i :: 0 <= i < n && SegmentDurationOf(mpds[i], isByteRangeMPD, adaptIndex).Err?
  {
    if n == 0 then Ok([])
    else match DurationsUpTo(mpds, isByteRangeMPD, adaptIndex, n - 1)
      case Err(f) => Err(f)
      case Ok(ds) =>
        match SegmentDurationOf(mpds[n - 1], isByteRangeMPD, adaptIndex)
        case Err(f) => Err(f)
        case Ok(d) => Ok(ds + [d])
  }

  /** The loop of GetSegmentDetails and GetByteRangeSegmentDetails over the MPD list. */
  method SegmentDurations(mpds: seq<MPD>, isByteRangeMPD: bool, adaptIndex: int) returns (r: Result<seq<int>>)
    ensures r == DurationsUpTo(mpds, isByteRangeMPD, adaptIndex, |mpds|)
  {
    var segmentDurations: seq<int> := [];
    var i := 0;
    while i < |mpds|
      invariant 0 <= i <= |mpds|
      invariant DurationsUpTo(mpds, isByteRangeMPD, adaptIndex, i) == Ok(segmentDurations)
    {
      var d := SegmentDurationOf(mpds[i], isByteRangeMPD, adaptIndex);
      if d.Err? {
        assert DurationsUpTo(mpds, isByteRangeMPD, adaptIndex, i + 1).Err?;
        DurationsFailureSticks(mpds, isByteRangeMPD, adaptIndex, i + 1, |mpds|);
        return Err(d.failure);
      }
      segmentDurations := segmentDurations + [d.value];
      i := i + 1;
    }
    return Ok(segmentDurations);
  }

  /** Once a prefix fails, every longer prefix fails with the same failure. */
  lemma {:induction false} DurationsFailureSticks(mpds: seq<MPD>, isByteRangeMPD: bool, adaptIndex: int, n: nat, m: nat)
    requires n <= m <= |mpds|
    requires DurationsUpTo(mpds, isByteRangeMPD, adaptIndex, n).Err?
    ensures DurationsUpTo(mpds, isByteRangeMPD, adaptIndex, m) == DurationsUpTo(mpds, isByteRangeMPD, adaptIndex, n)
    decreases m - n
  {
    if n < m {
      DurationsFailureSticks(mpds, isByteRangeMPD, adaptIndex, n, m - 1);
    }
  }

  /**
   * GetSegmentDetails (or GetByteRangeSegmentDetails): the number of
   * segments of MPD `mpdListIndex`, its presentation duration over its
   * segment duration, and every MPD's segment duration.
   */
  function SegmentDetails(mpds: seq<MPD>, mpdListIndex: int, isByteRangeMPD: bool, adaptIndex: int)
    : (r: Result<(int, seq<int>)>)
    ensures r.Ok? ==>
      0 <= mpdListIndex < |mpds| && DurationsUpTo(mpds, isByteRangeMPD, adaptIndex, |mpds|) == Ok(r.value.1) &&
      r.value.1[mpdListIndex] != 0 &&
      SplitMPDSegmentDuration(mpds[mpdListIndex].mediaPresentationDuration).Ok? &&
      r.value.0 == Quo(SplitMPDSegmentDuration(mpds[mpdListIndex].mediaPresentationDuration).value,
                       r.value.1[mpdListIndex])
  {
    if !(0 <= mpdListIndex < |mpds|) then Err(IndexOutOfRange)
    else match SplitMPDSegmentDuration(mpds[mpdListIndex].mediaPresentationDuration)
      case Err(f) => Err(f)
      case Ok(streamDuration) =>
        match DurationsUpTo(mpds, isByteRangeMPD, adaptIndex, |mpds|)
        case Err(f) => Err(f)
        case Ok(segmentDurations) =>
          if segmentDurations[mpdListIndex] == 0 then Err(DivideByZero)
          else Ok((Quo(streamDuration, segmentDurations[mpdListIndex]), segmentDurations))
  }

  /** What GetMPDValues returns. */
  datatype MPDValues = MPDValues(
    streamDuration: int,
    maxBufferLevel: int,
    highest: int,
    lowest: int,
    segmentDurations: seq<int>,
    bandwithList: seq<int>,
    baseURL: string)

  /**
   * The stream duration GetMPDValues settles on: the requested one when
   * non-zero, else the MPD's segments before the last times the segment
   * duration, plus the last segment's duration.
   */
  function MaxStreamDuration(mpd: MPD, maxSegments: int, segmentDuration: int, streamDuration: int)
    : (r: Result<int>)
    ensures streamDuration != 0 ==> r == Ok(streamDuration)
    ensures streamDuration == 0 ==>
      match SplitMPDSegmentDuration(mpd.maxSegmentDuration)
      case Ok(last) => r == Ok(segmentDuration * (maxSegments - 1) + last)
      case Err(f) => r == Err(f)
  {
    if streamDuration != 0 then Ok(streamDuration)
    else match SplitMPDSegmentDuration(mpd.maxSegmentDuration)
      case Err(f) => Err(f)
      case Ok(lastSegmentDuration) => Ok(segmentDuration * (maxSegments - 1) + lastSegmentDuration)
  }

  /**
   * For an unset request the stream lasts at least its last segment, and
   * exactly maxSegments segments when the last one is as long as the others.
   */
  lemma MaxStreamDurationCoversLast(mpd: MPD, maxSegments: int, segmentDuration: int)
    requires segmentDuration >= 0 && maxSegments >= 1
    ensures var r := MaxStreamDuration(mpd, maxSegments, segmentDuration, 0);
      var last := SplitMPDSegmentDuration(mpd.maxSegmentDuration);
      r.Ok? <==> last.Ok?
    ensures var r := MaxStreamDuration(mpd, maxSegments, segmentDuration, 0);
      var last := SplitMPDSegmentDuration(mpd.maxSegmentDuration);
      r.Ok? ==>
        r.value >= last.value &&
        (last.value == segmentDuration ==> r.value == segmentDuration * maxSegments)
  {
    var last := SplitMPDSegmentDuration(mpd.maxSegmentDuration);
    if last.Ok? {
      assert segmentDuration * (maxSegments - 1) >= 0 by {
        NonNegativeProduct(segmentDuration, maxSegments - 1);
      }
      assert segmentDuration * (maxSegments - 1) + segmentDuration == segmentDuration * maxSegments;
    }
  }

  lemma NonNegativeProduct(a: int, b: int)
    requires a >= 0 && b >= 0
    ensures a * b >= 0
  {
  }

  /**
   * The ladder check of GetMPDValues: the height ceiling and the last index,
   * accepted only when the ceiling's bandwidth is strictly above the last
   * rung's; fatal otherwise, and an index panic when either index is -1.
   */
  function LadderIndexes(reps: seq<Representation>, maxHeight: int): (r: Result<(int, int)>)
    ensures r.Ok? <==>
      (HeightIndex(reps, maxHeight) >= 0 && reps[HeightIndex(reps, maxHeight)].bandWidth > reps[|reps| - 1].bandWidth)
    ensures r.Ok? ==> r.value == (HeightIndex(reps, maxHeight), |reps| - 1)
    ensures (r.Err? && r.failure.Fatal?) <==>
      (HeightIndex(reps, maxHeight) >= 0 && reps[HeightIndex(reps, maxHeight)].bandWidth <= reps[|reps| - 1].bandWidth)
  {
    var minIndex := HeightIndex(reps, maxHeight);
    var maxIndex := |reps| - 1;
    var bandwithList := Bandwidths(reps);
    if minIndex < 0 || maxIndex < 0 then Err(IndexOutOfRange)
    else if bandwithList[minIndex] > bandwithList[maxIndex] then Ok((minIndex, maxIndex))
    else Err(Fatal("There is a problem with the indexes set for the representation rates in the MPD file, so stop"))
  }

  /**
   * GetMPDValues: the stream duration, the quality ceiling by height, the
   * last index, every MPD's segment duration, the ladder and the base URL
   * of the first adaptation set.
   */
  function GetMPDValues(mpds: seq<MPD>, mpdListIndex: int, maxHeight: int, streamDuration: int, maxBuffer: int,
                        currentMPDRepAdaptSet: int, isByteRangeMPD: bool): (r: Result<MPDValues>)
    ensures !(0 <= mpdListIndex < |mpds|) ==> r == Err(IndexOutOfRange)
    ensures 0 <= mpdListIndex < |mpds| && AdaptationSetAt(mpds[mpdListIndex], 0).Err? ==> r == Err(IndexOutOfRange)
    ensures r.Ok? ==>
      AdaptationSetAt(mpds[mpdListIndex], 0).Ok? &&
      r.value.baseURL == mpds[mpdListIndex].periods[0].adaptationSet[0].baseURL
    ensures r.Ok? ==>
      0 <= mpdListIndex < |mpds| &&
      var details := SegmentDetails(mpds, mpdListIndex, isByteRangeMPD, 0);
      var reps := Representations(mpds[mpdListIndex], currentMPDRepAdaptSet);
      details.Ok? && reps.Ok? &&
      r.value.segmentDurations == details.value.1 &&
      MaxStreamDuration(mpds[mpdListIndex], details.value.0, details.value.1[mpdListIndex], streamDuration)
        == Ok(r.value.streamDuration) &&
      LadderIndexes(reps.value, maxHeight) == Ok((r.value.highest, r.value.lowest)) &&
      r.value.bandwithList == Bandwidths(reps.value) &&
      r.value.maxBufferLevel == maxBuffer
  {
    if !(0 <= mpdListIndex < |mpds|) then Err(IndexOutOfRange)
    else
      var mpd := mpds[mpdListIndex];
      match AdaptationSetAt(mpd, 0)
      case Err(f) => Err(f)
      case Ok(set0) =>
        match SegmentDetails(mpds, mpdListIndex, isByteRangeMPD, 0)
        case Err(f) => Err(f)
        case Ok((maxSegments, segmentDurationArray)) =>
          match MaxStreamDuration(mpd, maxSegments, segmentDurationArray[mpdListIndex], streamDuration)
          case Err(f) => Err(f)
          case Ok(duration) =>
            match Representations(mpd, currentMPDRepAdaptSet)
            case Err(f) => Err(f)
            case Ok(reps) =>
              match LadderIndexes(reps, maxHeight)
              case Err(f) => Err(f)
              case Ok((minIndex, maxIndex)) =>
                Ok(MPDValues(duration, maxBuffer, minIndex, maxIndex, segmentDurationArray, Bandwidths(reps),
                             set0.baseURL))
  }

  /**
   * What GetMPDValues promises its caller: the ceiling is a valid index
   * whose bandwidth is strictly above the last rung's, which closes the
   * ladder, and a requested duration is kept.
   */
  lemma MPDValuesLadder(mpds: seq<MPD>, mpdListIndex: int, maxHeight: int, streamDuration: int, maxBuffer: int,
                        currentMPDRepAdaptSet: int, isByteRangeMPD: bool)
    requires GetMPDValues(mpds, mpdListIndex, maxHeight, streamDuration, maxBuffer, currentMPDRepAdaptSet,
                          isByteRangeMPD).Ok?
    ensures var v := GetMPDValues(mpds, mpdListIndex, maxHeight, streamDuration, maxBuffer, currentMPDRepAdaptSet,
                                  isByteRangeMPD).value;
      0 <= v.highest <= v.lowest && v.lowest == |v.bandwithList| - 1 &&
      v.bandwithList[v.highest] > v.bandwithList[v.lowest] &&
      (streamDuration != 0 ==> v.streamDuration == streamDuration)
  {
    var v := GetMPDValues(mpds, mpdListIndex, maxHeight, streamDuration, maxBuffer, currentMPDRepAdaptSet,
                          isByteRangeMPD).value;
    var reps := Representations(mpds[mpdListIndex], currentMPDRepAdaptSet).value;
    assert v.highest == HeightIndex(reps, maxHeight);
  }
}
