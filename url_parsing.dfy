/**
 * The pure pieces of http/urlParsing.go: joining a segment name onto a
 * manifest URL, the byte-range base URL of a representation, the Range
 * headers of the two byte-range requests, and the two computations inside
 * GetFile that do not touch the network or the disk (the name the segment
 * is saved under and the header-stripped bitrate).
 */
module UrlParsing {
  import opened Wrappers
  import opened GoNum
  import opened GoStrings
  import MpdParsing

  const Conversion1024: real := 1024.0

  /** GetRepresentationBaseURL: the base URL of the first representation of adaptation set k. */
  function GetRepresentationBaseURL(mpd: MpdParsing.MPD, currentMPDRepAdaptSet: int): (r: Result<string>)
    ensures r.Ok? <==> MpdParsing.Representations(mpd, currentMPDRepAdaptSet).Ok? &&
                       |MpdParsing.Representations(mpd, currentMPDRepAdaptSet).value| > 0
    ensures r.Ok? ==> r.value == MpdParsing.Representations(mpd, currentMPDRepAdaptSet).value[0].baseURL
  {
    match MpdParsing.Representations(mpd, currentMPDRepAdaptSet)
    case Err(f) => Err(f)
    case Ok(reps) => if |reps| == 0 then Err(IndexOutOfRange) else Ok(reps[0].baseURL)
  }

  // ---------------------------------------------------------------- JoinURL

  /**
   * JoinURL: an `append` that already holds "http" is a full URL and is
   * returned as it is; otherwise every occurrence of the last path element of
   * `baseURL` is replaced by `append`.
   */
  function JoinURL(baseURL: string, append: string): (r: string)
    ensures Contains(append, "http") ==> r == append
  {
    if !Contains(append, "http") then Replace(baseURL, Base(baseURL), append) else append
  }

  /** In `dir/name`, the first occurrence of a slash-free name not in dir is the final one. */
  lemma NameFirstOccursLast(dir: string, name: string)
    requires |name| > 0 && '/' !in name && !Contains(dir, name)
    ensures Index(dir + "/" + name, name) == |dir| + 1
  {
    var s := dir + "/" + name;
    IndexFirst(dir, name);
    assert OccursAt(s, name, |dir| + 1) by { assert s[|dir| + 1..|dir| + 1 + |name|] == name; }
    forall i | 0 <= i < |dir| + 1
      ensures !OccursAt(s, name, i)
    {
      if i + |name| <= |dir| {
        assert s[i..i + |name|] == dir[i..i + |name|];
        assert !OccursAt(dir, name, i);
      } else if i + |name| <= |s| {
        assert s[i..i + |name|][|dir| - i] == s[|dir|];
      }
    }
    IndexAt(s, name, |dir| + 1);
  }

  /**
   * For a manifest URL `dir/name` whose directory does not itself hold the
   * name, a relative segment name replaces the manifest's file name.
   */
  lemma JoinURLReplacesFileName(dir: string, name: string, append: string)
    requires |name| > 0 && '/' !in name && !Contains(dir, name)
    requires !Contains(append, "http")
    ensures JoinURL(dir + "/" + name, append) == dir + "/" + append
  {
    var s := dir + "/" + name;
    BaseOfJoined(dir, name);
    assert JoinURL(s, append) == Replace(s, name, append);
    ReplacedFileName(dir, name, append);
  }

  lemma ReplacedFileName(dir: string, name: string, append: string)
    requires |name| > 0 && '/' !in name && !Contains(dir, name)
    ensures Replace(dir + "/" + name, name, append) == dir + "/" + append
  {
    var s := dir + "/" + name;
    NameFirstOccursLast(dir, name);
    assert s[..|dir| + 1] == dir + "/";
    assert s[|dir| + 1 + |name|..] == "";
  }

  // ---------------------------------------------------------------- Range headers

  /** The Range header value getURLBody sends for a byte-range segment. */
  function RangeHeader(startRange: int, endRange: int): string
  {
    "bytes=" + Itoa(startRange) + "-" + Itoa(endRange)
  }

  /** The Range header value GetURLByteRangeBody sends: its last byte is one before `endRange`. */
  function ByteRangeBodyHeader(startRange: int, endRange: int): string
  {
    "bytes=" + Itoa(startRange) + "-" + Itoa(endRange - 1)
  }

  /**
   * Both headers are a "bytes=" byte-range-spec of RFC 7233 section 2.1 whose
   * positions read back as given: getURLBody asks for the last byte
   * `endRange` itself, GetURLByteRangeBody for the byte before it.
   */
  lemma RangeHeadersReadBack(startRange: int, endRange: int)
    requires startRange >= 0 && endRange >= 1
    ensures "bytes=" <= RangeHeader(startRange, endRange)
    ensures MpdParsing.SplitByteRange(RangeHeader(startRange, endRange)[6..]) == Ok((startRange, endRange))
    ensures "bytes=" <= ByteRangeBodyHeader(startRange, endRange)
    ensures MpdParsing.SplitByteRange(ByteRangeBodyHeader(startRange, endRange)[6..])
         == Ok((startRange, endRange - 1))
  {
    assert RangeHeader(startRange, endRange)[6..] == Itoa(startRange) + "-" + Itoa(endRange);
    assert ByteRangeBodyHeader(startRange, endRange)[6..] == Itoa(startRange) + "-" + Itoa(endRange - 1);
    MpdParsing.ByteRangeRoundTrip(startRange, endRange);
    MpdParsing.ByteRangeRoundTrip(startRange, endRange - 1);
  }

  // ---------------------------------------------------------------- GetFile: the saved file name

  /**
   * The path GetFile saves a segment under: the last element of the segment
   * URL, renamed `<stem>_segment<n>.m4s` for a video byte-range segment, and
   * prefixed with `<duration>sec_` when asked for or for byte-range audio.
   */
  function CreateFile(fileBaseURL: string, fileLocation: string, isByteRangeMPD: bool, segmentNumber: int,
                      segmentDuration: int, addSegDuration: bool, audioByteRange: bool): (r: string)
    ensures fileLocation + "/" <= r
  {
    var base0 := Base(fileBaseURL);
    var base := if isByteRangeMPD && !audioByteRange then
                  Split(base0, '.')[0] + "_segment" + Itoa(segmentNumber) + ".m4s"
                else base0;
    var name := if addSegDuration || audioByteRange then Itoa(segmentDuration) + "sec_" + base else base;
    assert (fileLocation + "/" + name)[..|fileLocation| + 1] == fileLocation + "/";
    fileLocation + "/" + name
  }

  /** A plain segment keeps its file name. */
  lemma PlainSegmentKeepsName(fileLocation: string, dir: string, name: string, isByteRangeMPD: bool,
                              segmentNumber: int, segmentDuration: int)
    requires |name| > 0 && '/' !in name
    ensures CreateFile(dir + "/" + name, fileLocation, false, segmentNumber, segmentDuration, false, false)
         == fileLocation + "/" + name
  {
    BaseOfJoined(dir, name);
  }

  /** A video byte-range segment `stem.ext` is saved as `stem_segment<n>.m4s`, prefixed with its duration when asked. */
  lemma ByteRangeSegmentName(fileLocation: string, dir: string, stem: string, ext: string, segmentNumber: int,
                             segmentDuration: int, addSegDuration: bool)
    requires '/' !in stem && '/' !in ext && '.' !in stem
    ensures CreateFile(dir + "/" + stem + "." + ext, fileLocation, true, segmentNumber, segmentDuration,
                       addSegDuration, false)
         == var saved := stem + "_segment" + Itoa(segmentNumber) + ".m4s";
            fileLocation + "/" + (if addSegDuration then Itoa(segmentDuration) + "sec_" + saved else saved)
  {
    var name := stem + "." + ext;
    assert dir + "/" + stem + "." + ext == dir + "/" + name;
    BaseOfJoined(dir, name);
    assert name == stem + ['.'] + ext;
    SplitPrefix(stem, ext, '.');
    assert Split(name, '.')[0] == stem;
  }

  // ---------------------------------------------------------------- GetFile: the header-stripped bitrate

  /** The eight bytes that open the media data box in the segments goDASH streams. */
  const MdatMarker: seq<bv8> := [0x00, 0x00, 0x00, 0x04, 0x68, 0xEF, 0xBC, 0x80]

  /**
   * The segment size GetFile reports for P.1203: when the marker occurs, the
   * bytes after its first occurrence; otherwise the whole size.
   */
  function WithoutHeaderSize(myBytes: seq<bv8>): (n: int)
    ensures 0 <= n <= |myBytes|
    ensures Index(myBytes, MdatMarker) == -1 ==> n == |myBytes|
    ensures Index(myBytes, MdatMarker) >= 0 ==>
      n == |myBytes| - (Index(myBytes, MdatMarker) + 8) &&
      myBytes[|myBytes| - n - 8..|myBytes| - n] == MdatMarker
  {
    var segSize := |myBytes|;
    var mdatValueInt := Index(myBytes, MdatMarker);
    IndexFirst(myBytes, MdatMarker);
    if mdatValueInt >= 0 then segSize - (mdatValueInt + 8) else segSize
  }

  /**
   * The bitrate GetFile logs: eight times the stripped size, divided by the
   * segment duration with Go's truncating integer division, then by 1024;
   * a zero duration is Go's division-by-zero panic.
   */
  function Kbps(withoutHeaderVal: int, segmentDuration: int): (r: Result<real>)
    ensures r.Err? <==> segmentDuration == 0
    ensures r.Ok? && withoutHeaderVal >= 0 && segmentDuration > 0 ==>
      var k := r.value * Conversion1024;
      k == (withoutHeaderVal * 8 / segmentDuration) as real &&
      k * segmentDuration as real <= (withoutHeaderVal * 8) as real < (k + 1.0) * segmentDuration as real
  {
    if segmentDuration == 0 then Err(DivideByZero)
    else
      var kbpsInt := Quo(withoutHeaderVal * 8, segmentDuration);
      QuoBounds(withoutHeaderVal * 8, segmentDuration);
      Ok(kbpsInt as real / Conversion1024)
  }

  /** For a non-negative dividend and positive divisor, Go's quotient is the floor of the real quotient. */
  lemma QuoBounds(a: int, b: int)
    requires b != 0
    ensures a >= 0 && b > 0 ==>
      Quo(a, b) == a / b && (a / b) * b <= a < (a / b + 1) * b &&
      ((a / b) as real) * (b as real) <= a as real < ((a / b) as real + 1.0) * (b as real)
  {
    if a >= 0 && b > 0 {
      QuoNonNegative(a, b);
      var q := a / b;
      assert q * b <= a < (q + 1) * b;
      assert (q * b) as real == (q as real) * (b as real);
      assert ((q + 1) * b) as real == (q as real + 1.0) * (b as real);
    }
  }
}
