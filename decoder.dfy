/** The response decoder: one page of the search service, laid out as eight parallel
    lists of strings, turned into a sequence of structured search results. */
module Decoder {

  import opened Wrappers
  import opened Sequences

  /** The errors of the library. `Request` stands for a failure of the HTTP transport
      or of its JSON decoding; its payload is an opaque description. */
  datatype Error = Request(cause: string) | Malformed(message: string)

  /** The Rust `Result<T, Error>`. */
  datatype Result<T> = Ok(value: T) | Err(error: Error)

  /** The message carried by the error for a page whose lists disagree in length. */
  const MismatchMessage: string := "mismatch in adjacent list sizes"

  /** The value of `botrec` that the service uses for "upload speed not recorded". */
  const NotRecorded: string := "Na"

  /** One page as the service sends it: the i-th element of every list describes result i. */
  datatype RawResult = RawResult(
    network: seq<string>,
    channel: seq<string>,
    bot: seq<string>,
    fsize: seq<string>,
    fname: seq<string>,
    packnum: seq<string>,
    gets: seq<string>,
    botrec: seq<string>)
  {
    /** The eight lists, in declaration order. */
    function Columns(): seq<seq<string>>
    {
      [network, channel, bot, fsize, fname, packnum, gets, botrec]
    }

    /** A page is consistent when its lists can be read as rows. The source compares
        every list with `channel`; equivalently, all eight lists have one length `n`. */
    predicate IsConsistent()
      ensures IsConsistent() <==>
                var n := |network|;
                && |channel| == n && |bot| == n && |fsize| == n && |fname| == n
                && |packnum| == n && |gets| == n && |botrec| == n
    {
      |network| == |channel|
      && |channel| == |bot|
      && |channel| == |fsize|
      && |channel| == |fname|
      && |channel| == |packnum|
      && |channel| == |gets|
      && |channel| == |botrec|
    }
  }

  /** Consistency means exactly that all eight lists have one length. */
  lemma ConsistentIffEqualLengths(raw: RawResult)
    ensures raw.IsConsistent() <==>
              forall i, j | 0 <= i < |raw.Columns()| && 0 <= j < |raw.Columns()| ::
                |raw.Columns()[i]| == |raw.Columns()[j]|
  {
    var cols := raw.Columns();
    if raw.IsConsistent() {
      forall i, j | 0 <= i < |cols| && 0 <= j < |cols|
        ensures |cols[i]| == |cols[j]|
      {
        assert |cols[i]| == |raw.channel| && |cols[j]| == |raw.channel|;
      }
    } else {
      assert cols[0] == raw.network && cols[1] == raw.channel && cols[2] == raw.bot;
      assert cols[3] == raw.fsize && cols[4] == raw.fname && cols[5] == raw.packnum;
      assert cols[6] == raw.gets && cols[7] == raw.botrec;
    }
  }

  /** One decoded search result. Every field except the upload speed is the service's
      string, unparsed. */
  datatype SearchResult = SearchResult(
    network: string,
    channel: string,
    bot: string,
    filesize: string,
    filename: string,
    packetNumber: string,
    downloadCount: string,
    uploadSpeed: Option<string>)

  /** The upload speed a `botrec` string stands for. */
  function UploadSpeed(botrec: string): (speed: Option<string>)
    ensures speed == None <==> botrec == NotRecorded
    ensures speed != None ==> speed.value == botrec
  {
    if botrec == NotRecorded then None else Some(botrec)
  }

  /** What a page means: its rows in the service's order, or the mismatch error. */
  function Decode(raw: RawResult): (r: Result<seq<SearchResult>>)
    ensures r.Ok? <==> raw.IsConsistent()
    ensures r.Err? ==> r.error == Malformed(MismatchMessage)
    ensures r.Ok? ==> |r.value| == |raw.network|
    ensures r.Ok? ==>
              forall i | 0 <= i < |r.value| ::
                && r.value[i].network == raw.network[i]
                && r.value[i].channel == raw.channel[i]
                && r.value[i].bot == raw.bot[i]
                && r.value[i].filesize == raw.fsize[i]
                && r.value[i].filename == raw.fname[i]
                && r.value[i].packetNumber == raw.packnum[i]
                && r.value[i].downloadCount == raw.gets[i]
                && r.value[i].uploadSpeed == UploadSpeed(raw.botrec[i])
  {
    if !raw.IsConsistent() then
      Err(Malformed(MismatchMessage))
    else
      Ok(seq(|raw.network|, i requires 0 <= i < |raw.network| => Row(raw, i)))
  }

  /** Row `i` of a consistent page. */
  function Row(raw: RawResult, i: nat): SearchResult
    requires raw.IsConsistent() && i < |raw.network|
  {
    SearchResult(raw.network[i], raw.channel[i], raw.bot[i], raw.fsize[i], raw.fname[i],
                 raw.packnum[i], raw.gets[i], UploadSpeed(raw.botrec[i]))
  }

  /** The `botrec` string the service sends for an upload speed. */
  function BotRec(speed: Option<string>): string
  {
    match speed
    case None => NotRecorded
    case Some(s) => s
  }

  /** The wire layout of a sequence of results: the inverse of `Decode`. */
  function Encode(results: seq<SearchResult>): (raw: RawResult)
    ensures raw.IsConsistent() && |raw.network| == |results|
  {
    var n := |results|;
    RawResult(
      seq(n, i requires 0 <= i < n => results[i].network),
      seq(n, i requires 0 <= i < n => results[i].channel),
      seq(n, i requires 0 <= i < n => results[i].bot),
      seq(n, i requires 0 <= i < n => results[i].filesize),
      seq(n, i requires 0 <= i < n => results[i].filename),
      seq(n, i requires 0 <= i < n => results[i].packetNumber),
      seq(n, i requires 0 <= i < n => results[i].downloadCount),
      seq(n, i requires 0 <= i < n => BotRec(results[i].uploadSpeed)))
  }

  /** Decoding loses nothing: a consistent page is recovered from its results. */
  lemma DecodeThenEncode(raw: RawResult)
    requires raw.IsConsistent()
    ensures Decode(raw).Ok? && Encode(Decode(raw).value) == raw
  {
  }

  /** Every sequence of results whose upload speeds are not the sentinel itself is
      the decoding of its wire layout. */
  lemma EncodeThenDecode(results: seq<SearchResult>)
    requires forall i | 0 <= i < |results| :: results[i].uploadSpeed != Some(NotRecorded)
    ensures Decode(Encode(results)) == Ok(results)
  {
    var d := Decode(Encode(results));
    assert d.Ok?;
    forall i | 0 <= i < |results|
      ensures d.value[i] == results[i]
    {
      assert d.value[i].uploadSpeed == UploadSpeed(BotRec(results[i].uploadSpeed));
    }
    assert d.value == results;
  }

  /** A speed that reads "Na" cannot be sent: the service would report it as not recorded. */
  lemma SentinelSpeedIsLost(r: SearchResult)
    requires r.uploadSpeed == Some(NotRecorded)
    ensures Decode(Encode([r])) == Ok([r.(uploadSpeed := None)])
  {
    var d := Decode(Encode([r]));
    assert d.value[0] == r.(uploadSpeed := None);
    assert d.value == [r.(uploadSpeed := None)];
  }

  /** `RawResult::consume`: appends the rows of a consistent page to `results`, last row
      first, so that popping from the end hands them out in the service's order. An
      inconsistent page appends nothing. */
  method Consume(raw: RawResult, results: seq<SearchResult>)
    returns (outcome: Result<()>, filled: seq<SearchResult>)
    ensures !raw.IsConsistent() ==> outcome == Err(Malformed(MismatchMessage)) && filled == results
    ensures raw.IsConsistent() ==> outcome == Ok(()) && filled == results + Reverse(Decode(raw).value)
  {
    if !raw.IsConsistent() {
      return Err(Malformed(MismatchMessage)), results;
    }
    ghost var rows := Decode(raw).value;
    filled := results;
    var i := |raw.network|;
    while i > 0
      invariant 0 <= i <= |raw.network|
      invariant filled == results + Reverse(rows[i..])
    {
      i := i - 1;
      var speed := UploadSpeed(raw.botrec[i]);
      var row := SearchResult(raw.network[i], raw.channel[i], raw.bot[i], raw.fsize[i],
                              raw.fname[i], raw.packnum[i], raw.gets[i], speed);
      assert rows[i..][1..] == rows[i + 1..];
      filled := filled + [row];
    }
    outcome := Ok(());
  }

  /** A page of two rows, the first without a recorded upload speed. */
  const SamplePage: RawResult :=
    RawResult(["irc.a.net", "irc.b.net"], ["#x", "#y"], ["B1", "B2"], ["[1M]", "[2M]"],
              ["f1", "f2"], ["#1", "#2"], ["1x", "2x"], ["Na", "100.0kB/s"])

  /** `SamplePage` decodes to its two rows, in order, with "Na" read as no upload speed. */
  lemma SamplePageDecodes()
    ensures Decode(SamplePage) == Ok([
              SearchResult("irc.a.net", "#x", "B1", "[1M]", "f1", "#1", "1x", None),
              SearchResult("irc.b.net", "#y", "B2", "[2M]", "f2", "#2", "2x", Some("100.0kB/s"))])
  {
    var d := Decode(SamplePage);
    assert d.Ok? && |d.value| == 2;
    assert UploadSpeed("100.0kB/s") == Some("100.0kB/s");
    assert d.value[0] == SearchResult("irc.a.net", "#x", "B1", "[1M]", "f1", "#1", "1x", None);
    assert d.value[1] == SearchResult("irc.b.net", "#y", "B2", "[2M]", "f2", "#2", "2x", Some("100.0kB/s"));
    assert d.value == [d.value[0], d.value[1]];
  }

  /** A page whose channel list is longer than its network list is malformed. */
  lemma LengthMismatch()
    ensures
      var raw := RawResult(["irc.a.net", "irc.b.net"], ["#x", "#y", "#z"], ["B1", "B2"],
                           ["[1M]", "[2M]"], ["f1", "f2"], ["#1", "#2"], ["1x", "2x"],
                           ["Na", "Na"]);
      Decode(raw) == Err(Malformed(MismatchMessage))
  {
  }
}
