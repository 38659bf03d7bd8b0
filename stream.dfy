/** The stream-status line of the volume screen: parsing of the card's
    `/proc/asound/card<N>/pcm0p/sub0/hw_params` file into "S16 44100" or
    "No stream". */
module Stream {
  import opened PyText

  predicate IsFormatLine(line: string) { StartsWith(line, "format:") }

  predicate IsRateLine(line: string) { StartsWith(line, "rate:") }

  /** `line.split(":")[1]`: the text between the first colon and the next. */
  function AfterColon(line: string): string
    requires ':' in line
  {
    SplitOn(line, ':')[1]
  }

  /** The sample format of a `format:` line: characters 1 and 2 of its value,
      so `format: S16_LE` gives "16". */
  function FormatField(line: string): (f: string)
    requires IsFormatLine(line)
    ensures |f| <= 2
  {
    assert line[6] == ':';
    Slice(Strip(AfterColon(line)), 1, 3)
  }

  /** The format field is characters 1 and 2 of the stripped text after the
      first colon, or what there is of them. */
  lemma FormatFieldMeaning(line: string)
    requires IsFormatLine(line)
    ensures ':' in line
    ensures var v, f := Strip(AfterColon(line)), FormatField(line);
      && (|v| >= 3 ==> f == v[1..3])
      && (|v| == 2 ==> f == v[1..])
      && (|v| <= 1 ==> f == [])
  {
    assert line[6] == ':';
  }

  /** The rate of a `rate:` line: `int` of the first word of its value.
      No word raises IndexError, a word that is not an integer ValueError. */
  function RateOf(line: string): (r: Result<int>)
    requires IsRateLine(line)
  {
    assert line[4] == ':';
    var toks := Words(Strip(AfterColon(line)));
    if toks == [] then Raised(IndexError)
    else match ParseInt(toks[0])
      case None => Raised(ValueError)
      case Some(v) => Returned(v)
  }

  /** What the loop over the file has found: `format` is None while no
      `format:` line was seen (the variable still holds "closed"). */
  datatype StreamInfo = StreamInfo(format: Option<string>, rate: int)

  /** One iteration of the loop over the lines of hw_params. */
  function ScanLine(info: StreamInfo, line: string): Result<StreamInfo> {
    var info' := if IsFormatLine(line) then info.(format := Some(FormatField(line))) else info;
    if IsRateLine(line) then
      match RateOf(line)
      case Raised(e) => Raised(e)
      case Returned(v) => Returned(info'.(rate := v))
    else Returned(info')
  }

  /** The whole loop: the first exception ends it. */
  function ParseHwParams(lines: seq<string>): Result<StreamInfo> {
    if lines == [] then Returned(StreamInfo(None, 0))
    else match ParseHwParams(lines[..|lines| - 1])
      case Raised(e) => Raised(e)
      case Returned(info) => ScanLine(info, lines[|lines| - 1])
  }

  /** The body of the loop of hw_line, for one line of the file. */
  method ScanLineStep(info: StreamInfo, line: string) returns (r: Result<StreamInfo>)
    ensures r == ScanLine(info, line)
  {
    var info' := info;
    if IsFormatLine(line) {
      info' := info'.(format := Some(FormatField(line)));
    }
    if IsRateLine(line) {
      var rate := RateOf(line);
      if rate.Raised? {
        return Raised(rate.error);
      }
      info' := info'.(rate := rate.value);
    }
    r := Returned(info');
  }

  /** The loop of hw_line over the lines of the file. */
  method ScanHwParams(lines: seq<string>) returns (r: Result<StreamInfo>)
    ensures r == ParseHwParams(lines)
  {
    var info := StreamInfo(None, 0);
    var i := 0;
    while i < |lines|
      invariant 0 <= i <= |lines|
      invariant ParseHwParams(lines[..i]) == Returned(info)
    {
      var step := ScanLineStep(info, lines[i]);
      assert lines[..i + 1][..i] == lines[..i];
      assert ParseHwParams(lines[..i + 1]) == step;
      if step.Raised? {
        r := step;
        ParseStopsAtError(lines, i + 1);
        return;
      }
      info := step.value;
      i := i + 1;
    }
    assert lines[..i] == lines;
    r := Returned(info);
  }

  /** Once a prefix raises, the whole file raises the same exception. */
  lemma {:induction false} ParseStopsAtError(lines: seq<string>, k: nat)
    requires k <= |lines| && ParseHwParams(lines[..k]).Raised?
    ensures ParseHwParams(lines) == ParseHwParams(lines[..k])
    decreases |lines| - k
  {
    if k < |lines| {
      assert lines[..k + 1][..k] == lines[..k];
      ParseStopsAtError(lines, k + 1);
    } else {
      assert lines[..k] == lines;
    }
  }

  /** Index of the last `format:` line, -1 if there is none. */
  function LastFormatIndex(lines: seq<string>): (i: int)
    ensures -1 <= i < |lines|
    ensures i >= 0 ==> IsFormatLine(lines[i])
    ensures forall j :: i < j < |lines| ==> !IsFormatLine(lines[j])
  {
    if lines == [] then -1
    else if IsFormatLine(lines[|lines| - 1]) then |lines| - 1
    else LastFormatIndex(lines[..|lines| - 1])
  }

  /** Index of the last `rate:` line, -1 if there is none. */
  function LastRateIndex(lines: seq<string>): (i: int)
    ensures -1 <= i < |lines|
    ensures i >= 0 ==> IsRateLine(lines[i])
    ensures forall j :: i < j < |lines| ==> !IsRateLine(lines[j])
  {
    if lines == [] then -1
    else if IsRateLine(lines[|lines| - 1]) then |lines| - 1
    else LastRateIndex(lines[..|lines| - 1])
  }

  predicate RateFails(line: string) {
    IsRateLine(line) && RateOf(line).Raised?
  }

  /** The parse fails exactly when some `rate:` line cannot be read; otherwise
      the last `format:` line gives the format (None when there is none) and
      the last `rate:` line the rate (0 when there is none). */
  lemma {:induction false} ParseHwParamsMeaning(lines: seq<string>)
    ensures ParseHwParams(lines).Raised? <==> exists i :: 0 <= i < |lines| && RateFails(lines[i])
    ensures ParseHwParams(lines).Returned? ==>
      var info := ParseHwParams(lines).value;
      var fi := LastFormatIndex(lines);
      var ri := LastRateIndex(lines);
      && info.format == (if fi < 0 then None else Some(FormatField(lines[fi])))
      && info.rate == (if ri < 0 then 0 else RateOf(lines[ri]).value)
  {
    if lines != [] {
      var pre := lines[..|lines| - 1];
      var last := lines[|lines| - 1];
      ParseHwParamsMeaning(pre);
      assert forall i :: 0 <= i < |pre| ==> pre[i] == lines[i];
      if ParseHwParams(pre).Raised? {
        var i :| 0 <= i < |pre| && RateFails(pre[i]);
        assert RateFails(lines[i]);
      } else if RateFails(last) {
        assert RateFails(lines[|lines| - 1]);
      } else {
        assert forall i :: 0 <= i < |lines| ==> !RateFails(lines[i]) by {
          forall i | 0 <= i < |lines| ensures !RateFails(lines[i]) {
            if i < |pre| { assert lines[i] == pre[i]; }
          }
        }
      }
    }
  }

  /** The text of the stream line in the packaged program. */
  function HwLineText(info: StreamInfo): string {
    match info.format
    case None => "No stream"
    case Some(f) => "S" + f + " " + ShowInt(info.rate)
  }

  /** The text of the stream line in the legacy program, which prints the
      initial "closed" when no format line was found. */
  function LegacyHwLineText(info: StreamInfo): string {
    "S" + (match info.format case None => "closed" case Some(f) => f) + " " + ShowInt(info.rate)
  }

  /** The packaged line reads "No stream" exactly when the file has no
      `format:` line (and then only then); otherwise it is "S", the two format
      characters, a space and the decimal rate, which reads back as the rate. */
  lemma HwLineTextMeaning(lines: seq<string>)
    requires ParseHwParams(lines).Returned?
    ensures HwLineText(ParseHwParams(lines).value) == "No stream" <==> LastFormatIndex(lines) < 0
    ensures LastFormatIndex(lines) >= 0 ==>
      var info := ParseHwParams(lines).value;
      var f := FormatField(lines[LastFormatIndex(lines)]);
      && HwLineText(info) == "S" + f + " " + ShowInt(info.rate)
      && ParseInt(ShowInt(info.rate)) == Some(info.rate)
  {
    ParseHwParamsMeaning(lines);
    var info := ParseHwParams(lines).value;
    ParseShowInt(info.rate);
    if info.format.Some? {
      assert HwLineText(info)[0] == 'S';
    }
  }
}
