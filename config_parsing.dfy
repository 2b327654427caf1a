/**
 * logging/configParsing.go once the JSON file has been read: the URL list
 * of the configuration, its parameters, and the comma-joined URL string
 * Configure hands back. Opening and unmarshalling the file are not modelled;
 * the decoded configuration is the input.
 */
module ConfigParsing {
  import opened GoStrings

  /** The decoded JSON configuration. */
  datatype Config = Config(
    url: string,
    adapt: string,
    codec: string,
    debug: string,
    initBuffer: int,
    maxBuffer: int,
    maxHeight: int,
    streamDuration: int,
    outputFolder: string,
    storeDash: string,
    terminalPrint: string,
    hls: string,
    getHeaders: string,
    expRatio: real,
    quic: string,
    printHeader: string,
    useTestbed: string,
    qoe: string,
    logFile: string)

  /** Every configuration parameter except the URL, as recupParameters returns them. */
  datatype Parameters = Parameters(
    adapt: string,
    codec: string,
    maxHeight: int,
    streamDuration: int,
    maxBuffer: int,
    initBuffer: int,
    hLS: string,
    outputFolder: string,
    storeDash: string,
    getHeaders: string,
    debug: string,
    terminalPrint: string,
    quic: string,
    expRatio: real,
    printHeader: string,
    useTestbed: string,
    qoe: string,
    configLogFile: string)

  /** recupParameters: each parameter is the configuration field of the same name. */
  function RecupParameters(config: Config): (p: Parameters)
    ensures p.adapt == config.adapt && p.codec == config.codec && p.maxHeight == config.maxHeight
    ensures p.streamDuration == config.streamDuration && p.maxBuffer == config.maxBuffer
    ensures p.initBuffer == config.initBuffer && p.hLS == config.hls && p.outputFolder == config.outputFolder
    ensures p.storeDash == config.storeDash && p.getHeaders == config.getHeaders && p.debug == config.debug
    ensures p.terminalPrint == config.terminalPrint && p.quic == config.quic && p.expRatio == config.expRatio
    ensures p.printHeader == config.printHeader && p.useTestbed == config.useTestbed && p.qoe == config.qoe
    ensures p.configLogFile == config.logFile
  {
    Parameters(config.adapt, config.codec, config.maxHeight, config.streamDuration, config.maxBuffer,
               config.initBuffer, config.hls, config.outputFolder, config.storeDash, config.getHeaders,
               config.debug, config.terminalPrint, config.quic, config.expRatio, config.printHeader,
               config.useTestbed, config.qoe, config.logFile)
  }

  /** The comma-separated pieces of the URL field once leading '[' and then trailing ']' are removed. */
  function URLPieces(url: string): (pieces: seq<string>)
    ensures |pieces| >= 1
  {
    Split(TrimRight(TrimLeft(url, "["), "]"), ',')
  }

  /** The URLs of a configuration: every piece with its surrounding white space trimmed. */
  function TrimmedURLs(url: string): (urls: seq<string>)
    ensures |urls| == |URLPieces(url)|
  {
    var pieces := URLPieces(url);
    seq(|pieces|, i requires 0 <= i < |pieces| => TrimSpace(pieces[i]))
  }

  /**
   * recupURLsFromConfig: trims each piece in place. The split always yields
   * at least one piece, so the "no urls" exit can never be taken.
   */
  method RecupURLsFromConfig(config: Config) returns (urls: seq<string>)
    ensures urls == TrimmedURLs(config.url)
    ensures |urls| >= 1
  {
    var urlString := TrimLeft(config.url, "[");
    urlString := TrimRight(urlString, "]");
    urls := Split(urlString, ',');
    ghost var pieces := urls;
    assert pieces == URLPieces(config.url);
    var i := 0;
    while i < |urls|
      invariant 0 <= i <= |urls| == |pieces|
      invariant forall k :: 0 <= k < |urls| ==> urls[k] == if k < i then TrimSpace(pieces[k]) else pieces[k]
    {
      urls := urls[i := TrimSpace(urls[i])];
      i := i + 1;
    }
  }

  /** Trimming white space keeps only characters of the original. */
  lemma TrimSpaceKeepsOut(s: string, c: char)
    requires c !in s
    ensures c !in TrimSpace(s)
  {
    var l := TrimLeftSpace(s);
    var r := TrimRightSpace(l);
    assert forall i :: 0 <= i < |r| ==> r[i] == l[i] == s[|s| - |l| + i];
  }

  /** A trimmed URL has no comma and no white space at either end. */
  lemma TrimmedURLsShape(url: string)
    ensures forall k :: 0 <= k < |TrimmedURLs(url)| ==>
      var u := TrimmedURLs(url)[k];
      ',' !in u && (|u| > 0 ==> !IsSpace(u[0]) && !IsSpace(u[|u| - 1]))
  {
    var pieces := URLPieces(url);
    forall k | 0 <= k < |pieces|
      ensures var u := TrimmedURLs(url)[k]; ',' !in u && (|u| > 0 ==> !IsSpace(u[0]) && !IsSpace(u[|u| - 1]))
    {
      assert TrimmedURLs(url)[k] == TrimSpace(pieces[k]);
      TrimmedPieceShape(pieces[k]);
    }
  }

  lemma TrimmedPieceShape(p: string)
    requires ',' !in p
    ensures var u := TrimSpace(p); ',' !in u && (|u| > 0 ==> !IsSpace(u[0]) && !IsSpace(u[|u| - 1]))
  {
    TrimSpaceKeepsOut(p, ',');
    var l := TrimLeftSpace(p);
    var u := TrimRightSpace(l);
    if |u| > 0 {
      assert u[0] == l[0];
    }
  }

  /**
   * Configure, after the file is read: the trimmed URLs joined with ',', and
   * the parameters. Splitting the joined string on ',' gives the trimmed URLs
   * back.
   */
  function Configure(config: Config): (r: (string, Parameters))
    ensures Split(r.0, ',') == TrimmedURLs(config.url)
    ensures r.1 == RecupParameters(config)
  {
    var requestedURLs := TrimmedURLs(config.url);
    TrimmedURLsShape(config.url);
    SplitJoin(requestedURLs, ',');
    (Join(requestedURLs, ','), RecupParameters(config))
  }
}
