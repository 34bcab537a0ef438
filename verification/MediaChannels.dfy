/** The channel registry and the pipeline that watches it (src/core/NtMediaChannels.cpp,
    src/app/Pipeline.cpp), with the parameters a dummy device takes from a channel's
    metadata (src/device/NtDummyVideoDevice.h, src/core/utils.h). */
module MediaChannels {
  import opened Options
  import opened Decimal

  type Metadata = map<string, string>

  datatype SourceType = Dummy | File | Camera

  datatype Channel = Channel(enable: bool, id: string, source: string, kind: SourceType, metadata: Metadata)

  // ----- parameters

  /** Floating point numbers as text: from_chars for double, and the default frame rate as
      std::format prints it. */
  datatype FpsCodec<!D> = FpsCodec(parse: string -> Option<D>, default: D, defaultText: string)

  /** The only thing assumed of it: the default reads back, and is not printed as nothing. */
  ghost predicate ReadsBack<D>(codec: FpsCodec<D>) {
    codec.defaultText != "" && codec.parse(codec.defaultText) == Some(codec.default)
  }

  datatype Params<D> = Params(id: string, width: int32, height: int32, fps: D)

  const DEFAULT_WIDTH: int32 := 640
  const DEFAULT_HEIGHT: int32 := 480

  /** tryParseString: the empty string is refused before any parsing. */
  function TryParse<T>(parse: string -> Option<T>, text: string): Option<T> {
    if text == "" then None else parse(text)
  }

  /** What operator[] of the metadata finds: a missing key becomes an empty entry. */
  function Lookup(metadata: Metadata, key: string): string {
    if key in metadata then metadata[key] else ""
  }

  /** One parameter: its value, and the metadata with that value's text. */
  function Taken<T>(
      metadata: Metadata, key: string, parse: string -> Option<T>, default: T, defaultText: string
  ): (T, Metadata) {
    match TryParse(parse, Lookup(metadata, key))
    case Some(value) => (value, metadata)
    case None => (default, metadata[key := defaultText])
  }

  function Created<D>(codec: FpsCodec<D>, metadata: Metadata): (Params<D>, Metadata) {
    var (width, m1) := Taken(metadata, "width", FromChars, DEFAULT_WIDTH, IntText(DEFAULT_WIDTH));
    var (height, m2) := Taken(m1, "height", FromChars, DEFAULT_HEIGHT, IntText(DEFAULT_HEIGHT));
    var (fps, m3) := Taken(m2, "fps", codec.parse, codec.default, codec.defaultText);
    (Params("dummy_video", width, height, fps), m3)
  }

  /** parseParam: take the parameter from the text, or the text from the parameter. */
  method ParseParam<T>(text: string, param: T, parse: string -> Option<T>, paramText: string)
    returns (text': string, param': T)
    ensures match TryParse(parse, text)
            case Some(value) => text' == text && param' == value
            case None => text' == paramText && param' == param
  {
    var val := TryParse(parse, text);
    if val.Some? {
      text', param' := text, val.value;
    } else {
      text', param' := paramText, param;
    }
  }

  /** A parameter and its text afterwards: both as found when there is a text that parses, and
      the default and its text otherwise. */
  ghost predicate ParamFrom<T>(metadata: Metadata, metadata': Metadata, key: string, parse: string -> Option<T>,
                               default: T, defaultText: string, value: T)
  {
    && key in metadata'
    && if key in metadata && metadata[key] != "" && parse(metadata[key]).Some? then
         value == parse(metadata[key]).value && metadata'[key] == metadata[key]
       else
         value == default && metadata'[key] == defaultText
  }

  /** Create, on the metadata by reference. */
  method Create<D>(codec: FpsCodec<D>, id: string, metadata: Metadata) returns (params: Params<D>, metadata': Metadata)
    ensures (params, metadata') == Created(codec, metadata)
    ensures params.id == "dummy_video"
    ensures ParamFrom(metadata, metadata', "width", FromChars, 640, "640", params.width)
    ensures ParamFrom(metadata, metadata', "height", FromChars, 480, "480", params.height)
    ensures ParamFrom(metadata, metadata', "fps", codec.parse, codec.default, codec.defaultText, params.fps)
    ensures forall key | key !in {"width", "height", "fps"} ::
              && (key in metadata' <==> key in metadata)
              && (key in metadata ==> metadata'[key] == metadata[key])
  {
    DefaultTexts();
    hide IntText, FromChars;
    var width, height, fps := DEFAULT_WIDTH, DEFAULT_HEIGHT, codec.default;
    var text;
    text, width := ParseParam(Lookup(metadata, "width"), width, FromChars, IntText(width));
    metadata' := metadata["width" := text];
    text, height := ParseParam(Lookup(metadata', "height"), height, FromChars, IntText(height));
    metadata' := metadata'["height" := text];
    text, fps := ParseParam(Lookup(metadata', "fps"), fps, codec.parse, codec.defaultText);
    metadata' := metadata'["fps" := text];
    params := Params("dummy_video", width, height, fps);
    assert metadata' == Created(codec, metadata).1;
  }

  lemma DefaultTexts()
    ensures IntText(640) == "640" && IntText(480) == "480"
  {
    assert NatText(6) == "6" && NatText(64) == "64" && NatText(640) == "640";
    assert NatText(4) == "4" && NatText(48) == "48" && NatText(480) == "480";
  }

  /** Taking the parameters leaves the metadata alone. */
  ghost predicate Settled<D>(codec: FpsCodec<D>, metadata: Metadata) {
    Created(codec, metadata).1 == metadata
  }

  lemma TakenAgain<T>(metadata: Metadata, key: string, parse: string -> Option<T>, default: T, defaultText: string)
    requires defaultText != "" && parse(defaultText) == Some(default)
    ensures var (value, m) := Taken(metadata, key, parse, default, defaultText);
            && key in m && m[key] != "" && parse(m[key]) == Some(value)
            && forall k | k != key :: (k in m <==> k in metadata) && (k in m ==> m[k] == metadata[k])
  {
  }

  lemma DefaultsReadBack()
    ensures IntText(DEFAULT_WIDTH) != "" && FromChars(IntText(DEFAULT_WIDTH)) == Some(DEFAULT_WIDTH)
    ensures IntText(DEFAULT_HEIGHT) != "" && FromChars(IntText(DEFAULT_HEIGHT)) == Some(DEFAULT_HEIGHT)
  {
    FromCharsRoundTrip(DEFAULT_WIDTH, []);
    FromCharsRoundTrip(DEFAULT_HEIGHT, []);
    assert IntText(DEFAULT_WIDTH) + [] == IntText(DEFAULT_WIDTH);
    assert IntText(DEFAULT_HEIGHT) + [] == IntText(DEFAULT_HEIGHT);
  }

  /** After Create the metadata spells out exactly the parameters taken: taking them again
      gives the same ones and changes nothing more. */
  lemma CreateSettles<D>(codec: FpsCodec<D>, metadata: Metadata)
    requires ReadsBack(codec)
    ensures var (params, metadata') := Created(codec, metadata);
            Created(codec, metadata') == (params, metadata')
  {
    hide IntText, FromChars;
    DefaultsReadBack();
    var (width, m1) := Taken(metadata, "width", FromChars, DEFAULT_WIDTH, IntText(DEFAULT_WIDTH));
    var (height, m2) := Taken(m1, "height", FromChars, DEFAULT_HEIGHT, IntText(DEFAULT_HEIGHT));
    TakenAgain(metadata, "width", FromChars, DEFAULT_WIDTH, IntText(DEFAULT_WIDTH));
    TakenAgain(m1, "height", FromChars, DEFAULT_HEIGHT, IntText(DEFAULT_HEIGHT));
    TakenAgain(m2, "fps", codec.parse, codec.default, codec.defaultText);
  }

  // ----- the pipeline

  /** Pipeline: the devices of the channels it has been told about. */
  class Pipeline<D(==,!new)> {
    const codec: FpsCodec<D>
    var channelSources: map<string, Option<Params<D>>>

    constructor (codec: FpsCodec<D>)
      ensures channelSources == map[] && this.codec == codec
    {
      this.codec := codec;
      channelSources := map[];
    }

    method AddChannel(channel: Channel)
      modifies this
      ensures channelSources == old(channelSources)[channel.id := None]
    {
      channelSources := channelSources[channel.id := None];
    }

    /** The channel is changed by reference; building a device may throw. */
    method UpdateChannel(channel: Channel, deviceThrows: bool) returns (channel': Channel, threw: bool)
      ensures channel' == if channel.id in channelSources then Normalised(codec, channel) else channel
      ensures threw <==>
                && deviceThrows && channel.kind == Dummy
                && channel.id in channelSources && channelSources[channel.id].None?
    {
      if channel.id !in channelSources {
        return channel, false;
      }
      channel', threw := UpdateDevice(channel, channelSources[channel.id], deviceThrows);
    }

    /** The new device is the parameter's, not the map's: it is not stored. */
    method UpdateDevice(channel: Channel, device: Option<Params<D>>, deviceThrows: bool)
      returns (channel': Channel, threw: bool)
      ensures channel' == Normalised(codec, channel)
      ensures channel' == channel.(metadata := if channel.kind == Dummy then Created(codec, channel.metadata).1
                                               else channel.metadata)
      ensures threw <==> deviceThrows && channel.kind == Dummy && device.None?
    {
      channel', threw := channel, false;
      if channel.kind == Dummy {
        var params, metadata := Create(codec, channel.id, channel.metadata);
        channel' := channel.(metadata := metadata);
        if device.None? && deviceThrows {
          threw := true;
        }
      }
    }
  }

  /** What an update makes of a channel before it is stored. */
  function Normalised<D>(codec: FpsCodec<D>, channel: Channel): Channel {
    if channel.kind == Dummy then channel.(metadata := Created(codec, channel.metadata).1) else channel
  }

  lemma NormalisedTwice<D>(codec: FpsCodec<D>, channel: Channel)
    requires ReadsBack(codec)
    ensures Normalised(codec, Normalised(codec, channel)) == Normalised(codec, channel)
    ensures Normalised(codec, channel).(metadata := channel.metadata) == channel
  {
    hide Created;
    CreateSettles(codec, channel.metadata);
  }

  // ----- the registry

  function Ids(channels: seq<Channel>): set<string> {
    set c | c in channels :: c.id
  }

  datatype Outcome = Updated | NotFound | Threw

  datatype Op = Add(id: string, anyKind: SourceType) | Update(channel: Channel, deviceThrows: bool)

  /** The position of the first channel with the id. */
  function FirstWith(channels: seq<Channel>, id: string): (i: nat)
    ensures i <= |channels| && (forall j | 0 <= j < i :: channels[j].id != id)
    ensures i < |channels| ==> channels[i].id == id
  {
    if channels == [] || channels[0].id == id then 0 else FirstWith(channels[1..], id) + 1
  }

  predicate BuildFails(channel: Channel, deviceThrows: bool) {
    deviceThrows && channel.kind == Dummy
  }

  /** The registry's channels after one operation. */
  function After<D>(codec: FpsCodec<D>, channels: seq<Channel>, op: Op): seq<Channel> {
    match op
    case Add(id, anyKind) => channels + [Channel(false, id, "", anyKind, map[])]
    case Update(channel, deviceThrows) =>
      var i := FirstWith(channels, channel.id);
      if i == |channels| || BuildFails(channel, deviceThrows) then channels
      else channels[i := Normalised(codec, channel)]
  }

  function AfterAll<D>(codec: FpsCodec<D>, channels: seq<Channel>, ops: seq<Op>): seq<Channel> {
    if ops == [] then channels else After(codec, AfterAll(codec, channels, ops[..|ops| - 1]), ops[|ops| - 1])
  }

  /** Operations take effect in the order in which they are given. */
  lemma {:induction false} OneAfterAnother<D>(codec: FpsCodec<D>, channels: seq<Channel>, first: seq<Op>, last: seq<Op>)
    ensures AfterAll(codec, channels, first + last) == AfterAll(codec, AfterAll(codec, channels, first), last)
    ensures |last| == 1 ==> AfterAll(codec, channels, last) == After(codec, channels, last[0])
  {
    var n := |last| - 1;
    if last == [] {
      assert first + last == first;
    } else {
      assert (first + last)[..|first + last| - 1] == first + last[..n];
      OneAfterAnother(codec, channels, first, last[..n]);
    }
  }

  /** NtMediaChannels with a pipeline subscribed. */
  class Registry<D(==,!new)> {
    const pipeline: Pipeline<D>
    var channels: seq<Channel>
    ghost var updated: set<nat>   // the positions an update has stored to

    /** The pipeline knows exactly the registered channels and holds no device for any; every
        dummy channel stored by an update has settled metadata. */
    ghost predicate Valid()
      reads this, pipeline
    {
      && ReadsBack(pipeline.codec)
      && pipeline.channelSources.Keys == Ids(channels)
      && (forall id | id in pipeline.channelSources :: pipeline.channelSources[id] == None)
      && (forall i | i in updated :: i < |channels|)
      && (forall i | i in updated && channels[i].kind == Dummy :: Settled(pipeline.codec, channels[i].metadata))
    }

    constructor (pipeline: Pipeline<D>)
      requires pipeline.channelSources == map[] && ReadsBack(pipeline.codec)
      ensures Valid() && channels == [] && this.pipeline == pipeline
    {
      this.pipeline := pipeline;
      channels := [];
      updated := {};
    }

    /** The id is made up elsewhere, and the source type is not initialised. */
    method AddChannel(id: string, anyKind: SourceType) returns (channel: Channel)
      requires Valid()
      modifies this, pipeline
      ensures Valid() && channels == old(channels) + [channel] && updated == old(updated)
      ensures channel == Channel(false, id, "", anyKind, map[])
    {
      hide ReadsBack, Settled;
      channel := Channel(false, id, "", anyKind, map[]);
      IdsAppend(channels, channel);
      channels := channels + [channel];
      pipeline.AddChannel(channel);
    }

    /** The first channel with the id is replaced by the normalised one; an exception leaves
        the registry as it was, but not the caller's channel. */
    method UpdateChannel(channel: Channel, deviceThrows: bool) returns (channel': Channel, outcome: Outcome)
      requires Valid()
      modifies this
      ensures Valid()
      ensures channels == After(pipeline.codec, old(channels), Update(channel, deviceThrows))
      ensures outcome == Updated ==>
                exists i: nat | i < |old(channels)| ::
                  && old(channels)[i].id == channel.id && (forall j | 0 <= j < i :: old(channels)[j].id != channel.id)
                  && channels == old(channels)[i := channel']
      ensures outcome != Updated ==> channels == old(channels)
      ensures channel'.(metadata := channel.metadata) == channel
      ensures outcome == NotFound <==> forall i | 0 <= i < |old(channels)| :: old(channels)[i].id != channel.id
      ensures outcome == Threw <==> outcome != NotFound && deviceThrows && channel.kind == Dummy
      ensures channel' == if outcome == NotFound then channel else Normalised(pipeline.codec, channel)
      ensures updated == old(updated) + (if outcome == Updated then {FirstWith(old(channels), channel.id)} else {})
    {
      hide ReadsBack, Settled, Normalised, Ids, FirstWith;
      for i := 0 to |channels|
        invariant channels == old(channels) && updated == old(updated)
        invariant forall j | 0 <= j < i :: channels[j].id != channel.id
      {
        if channels[i].id == channel.id {
          FirstIs(channels, channel.id, i);
          var threw;
          StoredSettled(pipeline.codec, channel);
          channel', threw := pipeline.UpdateChannel(channel, deviceThrows);
          if threw {
            return channel', Threw;
          }
          SameIds(channels, i, channel');
          channels := channels[i := channel'];
          updated := updated + {i};
          return channel', Updated;
        }
      }
      FirstIs(channels, channel.id, |channels|);
      return channel, NotFound;
    }

    method Execute(ops: seq<Op>)
      requires Valid()
      modifies this, pipeline
      ensures Valid() && channels == AfterAll(pipeline.codec, old(channels), ops)
    {
      hide ReadsBack, Settled, Normalised, Ids;
      assert ops[..0] == [];
      for i := 0 to |ops|
        invariant Valid() && channels == AfterAll(pipeline.codec, old(channels), ops[..i])
      {
        assert ops[..i + 1][..i] == ops[..i];
        if ops[i].Add? {
          var channel := AddChannel(ops[i].id, ops[i].anyKind);
        } else {
          var channel, outcome := UpdateChannel(ops[i].channel, ops[i].deviceThrows);
        }
      }
      assert ops[..|ops|] == ops;
    }
  }

  lemma StoredSettled<D>(codec: FpsCodec<D>, channel: Channel)
    requires ReadsBack(codec)
    ensures Normalised(codec, channel).(metadata := channel.metadata) == channel
    ensures channel.kind == Dummy ==> Settled(codec, Normalised(codec, channel).metadata)
  {
    hide Created;
    CreateSettles(codec, channel.metadata);
  }

  lemma FirstIs(channels: seq<Channel>, id: string, i: nat)
    requires i <= |channels| && (forall j | 0 <= j < i :: channels[j].id != id)
    requires i < |channels| ==> channels[i].id == id
    ensures FirstWith(channels, id) == i
    ensures id in Ids(channels) <==> i < |channels|
  {
    if i < |channels| {
      assert channels[i] in channels;
    }
  }

  lemma IdsAppend(channels: seq<Channel>, channel: Channel)
    ensures Ids(channels + [channel]) == Ids(channels) + {channel.id}
  {
    assert forall c | c in channels + [channel] :: c in channels || c == channel;
    assert channel in channels + [channel];
  }

  lemma SameIds(channels: seq<Channel>, i: nat, channel: Channel)
    requires i < |channels| && channels[i].id == channel.id
    ensures Ids(channels[i := channel]) == Ids(channels)
  {
    var channels' := channels[i := channel];
    forall id | id in Ids(channels) ensures id in Ids(channels') {
      var j :| 0 <= j < |channels| && channels[j].id == id;
      assert channels'[j].id == id;
    }
    forall id | id in Ids(channels') ensures id in Ids(channels) {
      var j :| 0 <= j < |channels'| && channels'[j].id == id;
      assert channels[j].id == id;
    }
  }
}
