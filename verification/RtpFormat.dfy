/** The RTP format string and the sink made from it
    (src/rtsp/BaseServerMediaSubsession.h, src/rtsp/BaseServerMediaSubsession.cpp). */
module RtpFormat {
  import opened Options
  import opened Decimal
  import opened Fields

  datatype DeviceFormat =
    | NoFormat
    | MJPEG | MPEGTS | H264 | HEVC | VP8 | VP9
    | ALaw | MuLaw | S8 | S16 | S24BE | S24LE | S32BE | S32LE | MPEG | AAC

  function VideoRtpFormat(format: DeviceFormat): string {
    match format
    case HEVC => "video/H265"
    case H264 => "video/H264"
    case MJPEG => "video/JPEG"
    case VP8 => "video/VP8"
    case VP9 => "video/VP9"
    case MPEGTS => "video/MP2T"
    case _ => ""
  }

  function AudioName(format: DeviceFormat): string {
    match format
    case ALaw => "PCMA"
    case MuLaw => "PCMU"
    case S8 => "L8"
    case S24BE | S24LE => "L24"
    case S32BE | S32LE => "L32"
    case MPEG => "MPEG"
    case _ => "L16"
  }

  function AudioRtpFormat(format: DeviceFormat, sampleRate: int32, channels: int32): string {
    "audio/" + AudioName(format) + "/" + IntText(sampleRate) + "/" + IntText(channels)
  }

  // ----- reading lines from a string

  /** The text up to a delimiter, all of it when there is none. */
  function UpTo(s: string, delim: char): (r: string)
    ensures r <= s && delim !in r
    ensures |r| < |s| ==> s[|r|] == delim
  {
    if s == [] || s[0] == delim then [] else [s[0]] + UpTo(s[1..], delim)
  }

  lemma {:induction false} UpToStops(s: string, delim: char, rest: string)
    requires delim !in s && (rest == [] || rest[0] == delim)
    ensures UpTo(s + rest, delim) == s
  {
    if s != [] {
      assert (s + rest)[1..] == s[1..] + rest;
      UpToStops(s[1..], delim, rest);
    } else {
      assert s + rest == rest;
    }
  }

  /** What follows the n-th slash, if there are so many. */
  function AfterSlash(s: string, n: nat): Option<string>
    decreases n
  {
    if n == 0 then Some(s)
    else
      var k := |UpTo(s, '/')|;
      if k == |s| then None else AfterSlash(s[k + 1..], n - 1)
  }

  /** What follows the n-th slash is the rest of the fields. */
  lemma {:induction false} AfterSlashIs(s: string, n: nat)
    ensures var fields := Split(s, '/');
            AfterSlash(s, n) == if n < |fields| then Some(Joined(fields[n..], '/')) else None
    decreases n
  {
    hide Split, Joined;
    var field := UpTo(s, '/');
    if n == 0 {
      assert Split(s, '/')[0..] == Split(s, '/');
    } else if |field| == |s| {
      SplitOne(s, '/');
    } else {
      var rest := s[|field| + 1..];
      assert s == field + ['/'] + rest;
      SplitFirst(field, rest, '/');
      AfterSlashIs(rest, n - 1);
      assert n - 1 < |Split(rest, '/')| ==> Split(s, '/')[n..] == Split(rest, '/')[n - 1..];
    }
  }

  /** An istringstream: how far it has been read, and whether the end has been hit. */
  class StringStream {
    const text: string
    var position: nat
    var good: bool

    ghost predicate Valid()
      reads this
    {
      position <= |text|
    }

    ghost function Rest(): string
      reads this
      requires Valid()
    {
      text[position..]
    }

    constructor (text: string)
      ensures Valid() && Rest() == text && good
    {
      this.text, position, good := text, 0, true;
    }

    /** std::getline: a stream that has hit its end leaves the string as it was. */
    method GetLine(str: string, delim: char) returns (line: string)
      requires Valid()
      modifies this
      ensures Valid()
      ensures line == if old(good) then UpTo(old(Rest()), delim) else str
      ensures good <==> old(good) && |UpTo(old(Rest()), delim)| < |old(Rest())|
      ensures good ==> Rest() == old(Rest())[|line| + 1..]
    {
      if !good {
        return str;
      }
      ghost var start := position;
      line := [];
      while position < |text| && text[position] != delim
        invariant good && start <= position <= |text| && line == text[start..position] && delim !in line
        decreases |text| - position
      {
        line := line + [text[position]];
        position := position + 1;
      }
      UpToStops(line, delim, text[position..]);
      assert line + text[position..] == text[start..];
      if position == |text| {
        good := false;
      } else {
        assert text[position + 1..] == text[start..][|line| + 1..];
        position := position + 1;
      }
    }
  }

  // ----- the sink

  datatype RtpSink =
    | MP2TSink | H264Sink | VP8Sink | VP9Sink | H265Sink | JPEGSink | MPEGSink | NoSink
    | L16Sink(sampleRate: Option<int32>, channels: Option<int32>)

  predicate StartsWith(s: string, prefix: string) {
    prefix <= s
  }

  function SampleRateText(format: string): string {
    match AfterSlash(format, 2)
    case None => "44100"
    case Some(rest) => UpTo(rest, '/')
  }

  function ChannelsText(format: string): string {
    match AfterSlash(format, 3)
    case None => "2"
    case Some(rest) => UpTo(rest, '\n')
  }

  /** The rate is the third field. */
  lemma SampleRateIs(format: string)
    ensures var fields := Split(format, '/');
            SampleRateText(format) == if |fields| > 2 then fields[2] else "44100"
  {
    hide Split, Joined, AfterSlash, UpTo;
    var fields := Split(format, '/');
    AfterSlashIs(format, 2);
    if |fields| > 2 {
      FirstOf(fields[2..]);
    }
  }

  lemma FirstOf(fields: seq<string>)
    requires fields != [] && Without(fields, '/')
    ensures UpTo(Joined(fields, '/'), '/') == fields[0]
  {
    if |fields| == 1 {
      assert fields[0] + [] == fields[0];
      UpToStops(fields[0], '/', []);
    } else {
      JoinedFront(fields[0], fields[1..], '/');
      assert fields == [fields[0]] + fields[1..];
      var rest := ['/'] + Joined(fields[1..], '/');
      assert Joined(fields, '/') == fields[0] + rest;
      UpToStops(fields[0], '/', rest);
    }
  }

  /** The channels are what is left of the line after the third field. */
  lemma ChannelsAre(format: string)
    ensures var fields := Split(format, '/');
            ChannelsText(format) == if |fields| > 3 then UpTo(Joined(fields[3..], '/'), '\n') else "2"
  {
    AfterSlashIs(format, 3);
  }

  function SinkOf(format: string): RtpSink {
    if format == "video/MP2T" then MP2TSink
    else if format == "video/H264" then H264Sink
    else if format == "video/VP8" then VP8Sink
    else if format == "video/VP9" then VP9Sink
    else if format == "video/H265" then H265Sink
    else if format == "video/JPEG" then JPEGSink
    else if StartsWith(format, "audio/L16") then L16Sink(Atoi(SampleRateText(format)), Atoi(ChannelsText(format)))
    else if StartsWith(format, "audio/MPEG") then MPEGSink
    else NoSink
  }

  /** The rate and channels are the third and fourth fields; those that are missing keep
      their defaults. */
  method ReadL16(format: string) returns (sampleRate: string, channels: string)
    ensures sampleRate == SampleRateText(format) && channels == ChannelsText(format)
    ensures var fields := Split(format, '/');
            && (sampleRate == if |fields| > 2 then fields[2] else "44100")
            && (channels == if |fields| > 3 then UpTo(Joined(fields[3..], '/'), '\n') else "2")
  {
    hide UpTo, AfterSlash, Split, Joined;
    SampleRateIs(format);
    ChannelsAre(format);
    var stream := new StringStream(format);
    var dummy := stream.GetLine("", '/');
    ghost var rest1, good1 := stream.Rest(), stream.good;
    dummy := stream.GetLine(dummy, '/');
    ghost var rest2, good2 := stream.Rest(), stream.good;
    sampleRate := stream.GetLine("44100", '/');
    ghost var rest3, good3 := stream.Rest(), stream.good;
    channels := stream.GetLine("2", '\n');
    Slashes(format, rest1, good1, rest2, good2, rest3, good3);
  }

  /** One read up to a slash: what is left, unless the end was hit. */
  ghost predicate Reads(good: bool, s: string, good': bool, rest: string) {
    && (good' <==> good && |UpTo(s, '/')| < |s|)
    && (good' ==> rest == s[|UpTo(s, '/')| + 1..])
  }

  /** Three reads find what follows the second and the third slash. */
  lemma Slashes(format: string, rest1: string, good1: bool, rest2: string, good2: bool, rest3: string, good3: bool)
    requires Reads(true, format, good1, rest1) && Reads(good1, rest1, good2, rest2) && Reads(good2, rest2, good3, rest3)
    ensures AfterSlash(format, 2) == if good2 then Some(rest2) else None
    ensures AfterSlash(format, 3) == if good3 then Some(rest3) else None
  {
    hide UpTo, AfterSlash;
    FirstSlash(format, 2);
    FirstSlash(format, 3);
    if good1 {
      FirstSlash(rest1, 1);
      FirstSlash(rest1, 2);
    }
    if good2 {
      FirstSlash(rest2, 1);
      NoSlashes(rest2);
    }
    if good3 {
      NoSlashes(rest3);
    }
  }

  lemma FirstSlash(s: string, n: nat)
    requires n > 0
    ensures AfterSlash(s, n) == if |UpTo(s, '/')| < |s| then AfterSlash(s[|UpTo(s, '/')| + 1..], n - 1) else None
  {
  }

  method CreateSink(format: string) returns (sink: RtpSink)
    ensures sink == SinkOf(format)
    ensures sink.MP2TSink? <==> format == "video/MP2T"
    ensures sink.H264Sink? <==> format == "video/H264"
    ensures sink.VP8Sink? <==> format == "video/VP8"
    ensures sink.VP9Sink? <==> format == "video/VP9"
    ensures sink.H265Sink? <==> format == "video/H265"
    ensures sink.JPEGSink? <==> format == "video/JPEG"
    ensures sink.L16Sink? <==> "audio/L16" <= format
    ensures sink.MPEGSink? <==> "audio/MPEG" <= format
    ensures sink.L16Sink? ==>
              sink == L16Sink(Atoi(SampleRateText(format)), Atoi(ChannelsText(format)))
  {
    AudioIsNoVideo(format);
    if format == "video/MP2T" {
      sink := MP2TSink;
    } else if format == "video/H264" {
      sink := H264Sink;
    } else if format == "video/VP8" {
      sink := VP8Sink;
    } else if format == "video/VP9" {
      sink := VP9Sink;
    } else if format == "video/H265" {
      sink := H265Sink;
    } else if format == "video/JPEG" {
      sink := JPEGSink;
    } else if StartsWith(format, "audio/L16") {
      var sampleRate, channels := ReadL16(format);
      sink := L16Sink(Atoi(sampleRate), Atoi(channels));
    } else if StartsWith(format, "audio/MPEG") {
      sink := MPEGSink;
    } else {
      sink := NoSink;
    }
  }

  lemma AudioIsNoVideo(format: string)
    ensures "audio/L16" <= format || "audio/MPEG" <= format ==> format[0] == 'a'
    ensures "audio/L16" <= format && "audio/MPEG" <= format ==> false
  {
    assert "audio/L16" <= format ==> format[6] == 'L';
    assert "audio/MPEG" <= format ==> format[6] == 'M';
  }

  // ----- the round trip

  predicate L16Class(format: DeviceFormat) {
    AudioName(format) == "L16"
  }

  lemma NumberHasNo(i: int32, c: char)
    requires c != '-' && !IsDigit(c)
    ensures c !in IntText(i)
  {
    var digits := NatText(Magnitude(i));
    assert forall k | 0 <= k < |digits| :: IsDigit(digits[k]);
  }

  lemma NameHasNoSlash(format: DeviceFormat)
    ensures '/' !in AudioName(format)
  {
  }

  /** The fields of an audio format read back as they were printed. */
  lemma AudioFields(format: DeviceFormat, sampleRate: int32, channels: int32)
    ensures var s := AudioRtpFormat(format, sampleRate, channels);
            SampleRateText(s) == IntText(sampleRate) && ChannelsText(s) == IntText(channels)
  {
    hide AudioName, IntText;
    var s := AudioRtpFormat(format, sampleRate, channels);
    var name, rate, ch := AudioName(format), IntText(sampleRate), IntText(channels);
    NameHasNoSlash(format);
    NumberHasNo(sampleRate, '/');
    NumberHasNo(channels, '\n');
    ThreeFields(name, rate, ch, s);
  }

  /** A printed audio format has four fields, with the name of the format's RTP payload. */
  lemma AudioNames(format: DeviceFormat, sampleRate: int32, channels: int32)
    ensures var fields := Split(AudioRtpFormat(format, sampleRate, channels), '/');
            && |fields| == 4 && fields[0] == "audio"
            && fields[2] == IntText(sampleRate) && fields[3] == IntText(channels)
            && (fields[1] == "PCMA" <==> format == ALaw)
            && (fields[1] == "PCMU" <==> format == MuLaw)
            && (fields[1] == "L8" <==> format == S8)
            && (fields[1] == "L24" <==> format == S24BE || format == S24LE)
            && (fields[1] == "L32" <==> format == S32BE || format == S32LE)
            && (fields[1] == "MPEG" <==> format == MPEG)
            && (fields[1] == "L16" <==> format !in {ALaw, MuLaw, S8, S24BE, S24LE, S32BE, S32LE, MPEG})
  {
    hide IntText, Split, AudioName;
    var name, rate, ch := AudioName(format), IntText(sampleRate), IntText(channels);
    NameHasNoSlash(format);
    NumberHasNo(sampleRate, '/');
    NumberHasNo(channels, '/');
    FourFields(name, rate, ch);
    NameIs(format);
  }

  lemma FourFields(name: string, rate: string, ch: string)
    requires '/' !in name && '/' !in rate && '/' !in ch
    ensures Split("audio/" + name + "/" + rate + "/" + ch, '/') == ["audio", name, rate, ch]
  {
    hide Split;
    SplitOne(ch, '/');
    SplitFirst(rate, ch, '/');
    SplitFirst(name, rate + ['/'] + ch, '/');
    SplitFirst("audio", name + ['/'] + (rate + ['/'] + ch), '/');
    Regrouped("audio", name, rate, ch, ['/']);
    assert "audio/" == "audio" + ['/'];
  }

  lemma Regrouped(a: string, b: string, c: string, d: string, slash: string)
    ensures a + slash + b + slash + c + slash + d == a + slash + (b + slash + (c + slash + d))
  {
    assert c + slash + d == c + (slash + d);
    assert b + slash + (c + slash + d) == b + slash + c + slash + d;
  }

  lemma NameIs(format: DeviceFormat)
    ensures var name := AudioName(format);
            && (name == "PCMA" <==> format == ALaw) && (name == "PCMU" <==> format == MuLaw)
            && (name == "L8" <==> format == S8) && (name == "L24" <==> format == S24BE || format == S24LE)
            && (name == "L32" <==> format == S32BE || format == S32LE) && (name == "MPEG" <==> format == MPEG)
            && (name == "L16" <==> format !in {ALaw, MuLaw, S8, S24BE, S24LE, S32BE, S32LE, MPEG})
  {
  }

  /** The names of the video formats. */
  lemma VideoNames(format: DeviceFormat)
    ensures var name := VideoRtpFormat(format);
            && (name == "video/H265" <==> format == HEVC) && (name == "video/H264" <==> format == H264)
            && (name == "video/JPEG" <==> format == MJPEG) && (name == "video/MP2T" <==> format == MPEGTS)
            && (name == "video/VP8" <==> format == VP8) && (name == "video/VP9" <==> format == VP9)
            && (name == "" <==> format !in {HEVC, H264, MJPEG, MPEGTS, VP8, VP9})
  {
  }

  lemma ThreeFields(name: string, rate: string, ch: string, s: string)
    requires '/' !in name && '/' !in rate && '\n' !in ch
    requires s == "audio" + "/" + (name + "/" + (rate + "/" + ch))
    ensures SampleRateText(s) == rate && ChannelsText(s) == ch
  {
    hide AfterSlash, UpTo;
    var afterName := rate + "/" + ch;
    var afterAudio := name + "/" + afterName;
    SlashField("audio", afterAudio, s, 3);
    SlashField("audio", afterAudio, s, 2);
    SlashField(name, afterName, afterAudio, 2);
    SlashField(name, afterName, afterAudio, 1);
    SlashField(rate, ch, afterName, 1);
    NoSlashes(afterName);
    NoSlashes(ch);
    assert afterName == rate + ("/" + ch);
    UpToStops(rate, '/', "/" + ch);
    assert ch + [] == ch;
    UpToStops(ch, '\n', []);
  }

  lemma NoSlashes(s: string)
    ensures AfterSlash(s, 0) == Some(s)
  {
  }

  lemma SlashField(field: string, rest: string, s: string, n: nat)
    requires '/' !in field && s == field + "/" + rest && n > 0
    ensures AfterSlash(s, n) == AfterSlash(rest, n - 1)
  {
    assert s == field + ("/" + rest);
    UpToStops(field, '/', "/" + rest);
    assert s[|field| + 1..] == rest;
  }

  lemma AudioPrefix(format: DeviceFormat, sampleRate: int32, channels: int32)
    ensures var s := AudioRtpFormat(format, sampleRate, channels);
            && |s| > 9 && s[0] == 'a'
            && (StartsWith(s, "audio/L16") <==> L16Class(format))
            && (StartsWith(s, "audio/MPEG") <==> format == MPEG)
  {
    var s := AudioRtpFormat(format, sampleRate, channels);
    var name := AudioName(format);
    assert s == "audio/" + (name + ("/" + IntText(sampleRate) + "/" + IntText(channels)));
    assert |IntText(sampleRate)| > 0 && |IntText(channels)| > 0;
    assert s[6] == name[0] && s[7] == name[1];
    if |name| == 3 {
      assert s[8] == name[2];
    } else if |name| == 2 {
      assert s[8] == '/';
    } else {
      assert s[8] == name[2] && s[9] == name[3];
    }
    if L16Class(format) {
      assert s[..9] == "audio/L16";
    } else if format == MPEG {
      assert s[..10] == "audio/MPEG";
    }
  }

  /** For every rate and number of channels, negative ones too, the printed format reaches
      the L16 branch exactly for the formats printed as L16, and there gives the same two
      numbers; MPEG reaches its own branch and every other audio format none. */
  lemma AudioRoundTrip(format: DeviceFormat, sampleRate: int32, channels: int32)
    ensures SinkOf(AudioRtpFormat(format, sampleRate, channels))
            == if L16Class(format) then L16Sink(Some(sampleRate), Some(channels))
               else if format == MPEG then MPEGSink
               else NoSink
  {
    hide AudioName, IntText, AudioRtpFormat, Atoi, SampleRateText, ChannelsText;
    AudioPrefix(format, sampleRate, channels);
    AudioFields(format, sampleRate, channels);
    AtoiRoundTrip(sampleRate, []);
    AtoiRoundTrip(channels, []);
    assert IntText(sampleRate) + [] == IntText(sampleRate);
    assert IntText(channels) + [] == IntText(channels);
  }

  /** A video format reaches the branch of its own codec, an audio format offered as video
      reaches none. */
  lemma VideoDispatch(format: DeviceFormat)
    ensures SinkOf(VideoRtpFormat(format))
            == match format
               case HEVC => H265Sink
               case H264 => H264Sink
               case MJPEG => JPEGSink
               case VP8 => VP8Sink
               case VP9 => VP9Sink
               case MPEGTS => MP2TSink
               case _ => NoSink
  {
  }
}
