/** The RTP-Info header of a PLAY response (src/rtsp/NtRtspServer.cpp, RFC 2326 section
    12.33), rebuilt stream by stream in buffers of computed size. */
module RtpInfo {
  import opened CStrings
  import opened Options
  import opened Decimal
  import opened StreamStates
  import opened Fields

  // ----- what the header should be

  /** The selected streams, by position. */
  function Listed(streams: seq<Stream>, target: Option<nat>): (list: seq<nat>)
    ensures forall k | 0 <= k < |list| :: list[k] < |streams|
  {
    if streams == [] then []
    else
      var n := |streams| - 1;
      Listed(streams[..n], target) + (if Selected(streams[n], target) then [n] else [])
  }

  lemma {:induction false} ListedIsSelected(streams: seq<Stream>, target: Option<nat>)
    ensures var list := Listed(streams, target);
            && (forall i: nat :: i in list <==>
                  i < |streams| && streams[i].subsession.Some? && (target == None || streams[i].subsession == target))
            && (forall j, k | 0 <= j < k < |list| :: list[j] < list[k])
  {
    if streams != [] {
      ListedIsSelected(streams[..|streams| - 1], target);
    }
  }

  /** The numbers reported for the last stream: a stream without a sink repeats those of the
      last selected one that has a sink. */
  function Reported(streams: seq<Stream>, target: Option<nat>): Numbers {
    if streams == [] then Numbers(0, 0)
    else
      var n := |streams| - 1;
      if Selected(streams[n], target) && streams[n].sink.Some? then streams[n].sink.value
      else Reported(streams[..n], target)
  }

  lemma {:induction false} ReportedIsLastSink(streams: seq<Stream>, target: Option<nat>, i: nat)
    requires i < |streams| && Selected(streams[i], target) && streams[i].sink.Some?
    requires forall j | i < j < |streams| && Selected(streams[j], target) :: streams[j].sink.None?
    ensures Reported(streams, target) == streams[i].sink.value
  {
    var n := |streams| - 1;
    if i < n {
      ReportedIsLastSink(streams[..n], target, i);
    }
  }

  /** Before any selected stream has a sink, zeros are reported. */
  lemma {:induction false} ReportedWithoutSink(streams: seq<Stream>, target: Option<nat>)
    requires forall i | 0 <= i < |streams| && Selected(streams[i], target) :: streams[i].sink.None?
    ensures Reported(streams, target) == Numbers(0, 0)
  {
    if streams != [] {
      ReportedWithoutSink(streams[..|streams| - 1], target);
    }
  }

  function Item(url: string, trackId: string, numbers: Numbers): string {
    "url=" + url + "/" + trackId + ";seq=" + NatText(numbers.seqNo) + ";rtptime=" + NatText(numbers.timestamp)
  }

  function Items(streams: seq<Stream>, target: Option<nat>, url: string): (items: seq<string>)
    ensures |items| == |Listed(streams, target)|
  {
    if streams == [] then []
    else
      var n := |streams| - 1;
      Items(streams[..n], target, url)
      + (if Selected(streams[n], target) then [Item(url, streams[n].trackId, Reported(streams, target))] else [])
  }

  /** The k-th item is that of the k-th selected stream, with the numbers known by then. */
  lemma {:induction false} ItemOfListed(streams: seq<Stream>, target: Option<nat>, url: string, k: nat)
    requires k < |Listed(streams, target)|
    ensures var i := Listed(streams, target)[k];
            Items(streams, target, url)[k] == Item(url, streams[i].trackId, Reported(streams[..i + 1], target))
  {
    hide Item, Reported, Selected;
    var n := |streams| - 1;
    if k < |Listed(streams[..n], target)| {
      ItemOfListed(streams[..n], target, url, k);
      var i := Listed(streams, target)[k];
      assert streams[..n][..i + 1] == streams[..i + 1];
    } else {
      assert streams[..n + 1] == streams;
    }
  }

  function Header(items: seq<string>): string {
    if items == [] then "" else Framed(Joined(items, ','))
  }

  // ----- reading the header

  /** The text is this digit string's number behind this key. */
  ghost predicate Labelled(text: string, key: string, n: nat) {
    key <= text && |text| > |key| && AllDigits(text[|key|..]) && NatValue(text[|key|..]) == n
  }

  /** What a client reads in an item: the track's address, the sequence number and the RTP
      time, by their labels. */
  ghost predicate ItemReads(item: string, address: string, seqNo: nat, timestamp: nat) {
    var parts := Split(item, ';');
    && |parts| == 3 && parts[0] == "url=" + address
    && Labelled(parts[1], "seq=", seqNo) && Labelled(parts[2], "rtptime=", timestamp)
  }

  lemma NumberLabelled(key: string, n: nat)
    ensures Labelled(key + NatText(n), key, n)
  {
    NatRoundTrip(n);
    assert (key + NatText(n))[|key|..] == NatText(n);
  }

  lemma NumberHasNo(n: nat, c: char)
    requires !IsDigit(c)
    ensures c !in NatText(n)
  {
    var digits := NatText(n);
    assert forall k | 0 <= k < |digits| :: IsDigit(digits[k]);
  }

  lemma ItemIsRead(url: string, trackId: string, numbers: Numbers)
    requires ';' !in url && ';' !in trackId
    ensures ItemReads(Item(url, trackId, numbers), url + "/" + trackId, numbers.seqNo, numbers.timestamp)
  {
    hide NatText, NatValue, Joined, Split, Labelled;
    var seqText, timeText := NatText(numbers.seqNo), NatText(numbers.timestamp);
    NumberHasNo(numbers.seqNo, ';');
    NumberHasNo(numbers.timestamp, ';');
    NumberLabelled("seq=", numbers.seqNo);
    NumberLabelled("rtptime=", numbers.timestamp);
    assert ';' !in "url=" && ';' !in "seq=" && ';' !in "rtptime=";
    ThreeParts("url=" + (url + "/" + trackId), "seq=" + seqText, "rtptime=" + timeText);
    ItemRegrouped(url, trackId, seqText, timeText);
  }

  lemma ThreeParts(a: string, b: string, c: string)
    requires ';' !in a && ';' !in b && ';' !in c
    ensures Split(a + [';'] + b + [';'] + c, ';') == [a, b, c]
  {
    hide Split;
    SplitOne(a, ';');
    SplitLast(a, b, ';');
    SplitLast(a + [';'] + b, c, ';');
  }

  lemma ItemRegrouped(url: string, trackId: string, a: string, b: string)
    ensures "url=" + url + "/" + trackId + ";seq=" + a + ";rtptime=" + b
            == "url=" + (url + "/" + trackId) + [';'] + ("seq=" + a) + [';'] + ("rtptime=" + b)
  {
    assert ";seq=" == [';'] + "seq=" && ";rtptime=" == [';'] + "rtptime=";
    assert "url=" + (url + "/" + trackId) == "url=" + url + "/" + trackId;
  }

  /** No name contains what separates items or their parts. */
  ghost predicate PlainNames(streams: seq<Stream>, url: string) {
    && ';' !in url && ',' !in url
    && forall i | 0 <= i < |streams| :: ';' !in streams[i].trackId && ',' !in streams[i].trackId
  }

  /** What a client reads in the header: one item for each selected stream, in order. */
  ghost predicate HeaderReads(text: string, streams: seq<Stream>, target: Option<nat>, url: string) {
    var list := Listed(streams, target);
    && |text| >= 12 && text[..10] == "RTP-Info: " && text[|text| - 2..] == "\r\n"
    && var items := Split(text[10..|text| - 2], ',');
       && |items| == |list|
       && forall k | 0 <= k < |list| ::
            var numbers := Reported(streams[..list[k] + 1], target);
            ItemReads(items[k], url + "/" + streams[list[k]].trackId, numbers.seqNo, numbers.timestamp)
  }

  lemma ItemHasNoComma(url: string, trackId: string, numbers: Numbers)
    requires ',' !in url && ',' !in trackId
    ensures ',' !in Item(url, trackId, numbers)
  {
    NumberHasNo(numbers.seqNo, ',');
    NumberHasNo(numbers.timestamp, ',');
    assert ',' !in "url=" && ',' !in ";seq=" && ',' !in ";rtptime=";
  }

  lemma HeaderIsRead(streams: seq<Stream>, target: Option<nat>, url: string)
    requires PlainNames(streams, url) && Listed(streams, target) != []
    ensures HeaderReads(Header(Items(streams, target, url)), streams, target, url)
  {
    hide Listed, Reported, Item, Items, Joined, Split, ItemReads, Framed;
    var list, items := Listed(streams, target), Items(streams, target, url);
    FramedIs(Joined(items, ','));
    forall k | 0 <= k < |list|
      ensures ',' !in items[k]
      ensures var numbers := Reported(streams[..list[k] + 1], target);
              ItemReads(items[k], url + "/" + streams[list[k]].trackId, numbers.seqNo, numbers.timestamp)
    {
      var stream, numbers := streams[list[k]], Reported(streams[..list[k] + 1], target);
      ItemOfListed(streams, target, url, k);
      ItemHasNoComma(url, stream.trackId, numbers);
      ItemIsRead(url, stream.trackId, numbers);
    }
    SplitJoined(items, ',');
    HeaderOf(items);
  }

  function Framed(body: string): string {
    "RTP-Info: " + body + "\r\n"
  }

  lemma FramedIs(body: string)
    ensures var text := Framed(body);
            && |text| >= 12 && text[..10] == "RTP-Info: " && text[|text| - 2..] == "\r\n"
            && text[10..|text| - 2] == body
  {
    assert |"RTP-Info: "| == 10 && |"\r\n"| == 2;
  }

  // ----- the buffers

  /** The buffer holds the text and its terminator. */
  ghost predicate Holds(buffer: array<char>, text: string)
    reads buffer
  {
    |text| < buffer.Length && buffer[..|text|] == text && buffer[|text|] == NUL
  }

  lemma HeldString(buffer: array<char>, text: string)
    requires Holds(buffer, text) && NUL !in text
    ensures CString(buffer[..]) == text
  {
    assert buffer[..][..|text|] == buffer[..|text|];
    CStringIs(buffer[..], |text|);
  }

  lemma BeforeTerminator(buffer: array<char>, text: string, n: nat)
    requires Holds(buffer, text) && NUL !in text && n < |text|
    ensures buffer[n] != NUL
  {
    HeldString(buffer, text);
    NoTerminatorInside(buffer[..], n);
  }

  /** One piece of a sprintf: the text behind what is already there. */
  method Append(buffer: array<char>, at: nat, text: string) returns (next: nat)
    requires at + |text| <= buffer.Length
    modifies buffer
    ensures next == at + |text|
    ensures buffer[..next] == old(buffer[..at]) + text
  {
    for i := 0 to |text|
      invariant buffer[..at + i] == old(buffer[..at]) + text[..i]
    {
      buffer[at + i] := text[i];
      assert text[..i + 1] == text[..i] + [text[i]];
      assert buffer[..at + i + 1] == buffer[..at + i] + [text[i]];
    }
    assert text[..|text|] == text;
    next := at + |text|;
  }

  /** Copy a string up to its terminator. */
  method AppendString(buffer: array<char>, source: array<char>, ghost text: string) returns (next: nat)
    requires buffer != source && Holds(source, text) && NUL !in text && |text| <= buffer.Length
    modifies buffer
    ensures next == |text| && buffer[..next] == text
  {
    next := 0;
    while source[next] != NUL
      invariant next <= |text| && buffer[..next] == text[..next]
      invariant Holds(source, text)
      decreases |text| - next
    {
      assert source[next] == source[..|text| + 1][next];
      buffer[next] := source[next];
      next := next + 1;
      assert text[..next] == text[..next - 1] + [text[next - 1]];
      assert buffer[..next] == buffer[..next - 1] + [text[next - 1]];
    }
    if next < |text| {
      BeforeTerminator(source, text, next);
    }
    assert text[..next] == text;
  }

  const FORMAT: string := "%s%surl=%s/%s;seq=%d;rtptime=%u"

  lemma FormatLength()
    ensures |FORMAT| == 31
  {
  }

  lemma ItemLength(url: string, trackId: string, numbers: Numbers)
    ensures |Item(url, trackId, numbers)| <= 4 + |url| + 1 + |trackId| + 5 + 5 + 9 + 10
  {
    Uint16Length(numbers.seqNo);
    Uint32Length(numbers.timestamp);
  }

  /** The text before the final line end. */
  function Growing(items: seq<string>): string {
    "RTP-Info: " + Joined(items, ',')
  }

  /** Allocate and print one more item behind the previous text. */
  method AddItem(prev: array<char>, ghost items: seq<string>, count: nat, url: string, trackId: string,
                 numbers: Numbers)
    returns (rtpInfo: array<char>)
    requires Holds(prev, Growing(items)) && NUL !in Growing(items) && count == |items|
    ensures fresh(rtpInfo)
    ensures var text := Growing(items + [Item(url, trackId, numbers)]);
            Holds(rtpInfo, text) && |text| + 3 <= rtpInfo.Length
  {
    hide Item, Joined, NatText;
    ItemLength(url, trackId, numbers);
    FormatLength();
    ghost var before := Growing(items);
    var prevLength := Length(prev, before);
    rtpInfo := new char[|FORMAT| + prevLength + 1 + |url| + |trackId| + 5 + 10 + 2];
    var at := AppendString(rtpInfo, prev, before);
    at := Append(rtpInfo, at, if count == 0 then "" else ",");
    at := Append(rtpInfo, at, Item(url, trackId, numbers));
    rtpInfo[at] := NUL;
    GrowingBy(items, Item(url, trackId, numbers));
    assert rtpInfo[..at] == before + (if count == 0 then "" else ",") + Item(url, trackId, numbers);
  }

  method Length(buffer: array<char>, ghost text: string) returns (n: nat)
    requires Holds(buffer, text) && NUL !in text
    ensures n == |text|
  {
    n := 0;
    while buffer[n] != NUL
      invariant n <= |text|
      decreases |text| - n
    {
      n := n + 1;
    }
    if n < |text| {
      BeforeTerminator(buffer, text, n);
    }
  }

  lemma GrowingBy(items: seq<string>, item: string)
    ensures Growing(items + [item]) == Growing(items) + (if items == [] then "" else ",") + item
  {
    assert (items + [item])[..|items|] == items;
  }

  /** The header for a request, and the numbers the streams are then started with. */
  method BuildHeader(streams: seq<Stream>, target: Option<nat>, url: string)
    returns (rtpInfo: array<char>, numbers: Numbers)
    requires NUL !in url && forall i | 0 <= i < |streams| :: NUL !in streams[i].trackId
    ensures Holds(rtpInfo, Header(Items(streams, target, url)))
    ensures Listed(streams, target) == [] ==> Holds(rtpInfo, "")
    ensures Listed(streams, target) != [] && PlainNames(streams, url) ==>
              exists text :: Holds(rtpInfo, text) && HeaderReads(text, streams, target, url)
    ensures numbers == Reported(streams, target)
  {
    hide Items, Reported, Joined, Item, Header, Growing, HeaderReads, PlainNames, Listed;
    rtpInfo := new char[11];
    var at := Append(rtpInfo, 0, "RTP-Info: ");
    rtpInfo[at] := NUL;
    var count := 0;
    numbers := Numbers(0, 0);
    ghost var items: seq<string> := [];
    NothingYet(streams[..0], target, url);
    for i := 0 to |streams|
      invariant items == Items(streams[..i], target, url) && count == |items|
      invariant numbers == Reported(streams[..i], target)
      invariant NUL !in Growing(items) && fresh(rtpInfo)
      invariant Holds(rtpInfo, Growing(items)) && (items != [] ==> |Growing(items)| + 3 <= rtpInfo.Length)
    {
      ItemsStep(streams, target, url, i);
      if target == None || target == streams[i].subsession {
        if streams[i].subsession == None {
          continue;
        }
        if streams[i].sink.Some? {
          numbers := streams[i].sink.value;
        }
        rtpInfo := AddItem(rtpInfo, items, count, url, streams[i].trackId, numbers);
        count := count + 1;
        ItemNoTerminator(items, url, streams[i].trackId, numbers);
        items := items + [Item(url, streams[i].trackId, numbers)];
      }
    }
    assert streams[..|streams|] == streams;
    if count == 0 {
      rtpInfo[0] := NUL;
    } else {
      var length := Length(rtpInfo, Growing(items));
      ghost var text := Growing(items);
      rtpInfo[length] := '\r';
      rtpInfo[length + 1] := '\n';
      rtpInfo[length + 2] := NUL;
      assert rtpInfo[..length + 2] == text + "\r\n";
    }
    HeaderOf(items);
    if Listed(streams, target) != [] && PlainNames(streams, url) {
      HeaderIsRead(streams, target, url);
    }
  }

  lemma NothingYet(streams: seq<Stream>, target: Option<nat>, url: string)
    requires streams == []
    ensures Items(streams, target, url) == [] && Reported(streams, target) == Numbers(0, 0)
    ensures Growing([]) == "RTP-Info: " && NUL !in Growing([])
  {
    assert "RTP-Info: " + [] == "RTP-Info: ";
  }

  lemma HeaderOf(items: seq<string>)
    ensures Header(items) == if items == [] then "" else Growing(items) + "\r\n"
    ensures items != [] ==> Header(items) == Framed(Joined(items, ','))
  {
  }

  lemma ItemsStep(streams: seq<Stream>, target: Option<nat>, url: string, i: nat)
    requires i < |streams|
    ensures Reported(streams[..i + 1], target)
            == if Selected(streams[i], target) && streams[i].sink.Some? then streams[i].sink.value
               else Reported(streams[..i], target)
    ensures Items(streams[..i + 1], target, url)
            == Items(streams[..i], target, url)
               + (if Selected(streams[i], target)
                  then [Item(url, streams[i].trackId, Reported(streams[..i + 1], target))]
                  else [])
  {
    assert streams[..i + 1][..i] == streams[..i];
  }

  lemma ItemNoTerminator(items: seq<string>, url: string, trackId: string, numbers: Numbers)
    requires NUL !in Growing(items) && NUL !in url && NUL !in trackId
    ensures NUL !in Growing(items + [Item(url, trackId, numbers)])
  {
    GrowingBy(items, Item(url, trackId, numbers));
    assert NUL !in "url=" && NUL !in ";seq=" && NUL !in ";rtptime=";
    assert NUL !in NatText(numbers.seqNo) && NUL !in NatText(numbers.timestamp);
  }

  /** The streams started after the response, in order: exactly those listed in it. */
  method StartStreams(streams: seq<Stream>, target: Option<nat>) returns (started: seq<nat>)
    ensures started == Listed(streams, target)
  {
    started := [];
    assert streams[..0] == [];
    for i := 0 to |streams|
      invariant started == Listed(streams[..i], target)
    {
      assert streams[..i + 1][..i] == streams[..i];
      if target == None || target == streams[i].subsession {
        if streams[i].subsession == None {
          continue;
        }
        started := started + [i];
      }
    }
    assert streams[..|streams|] == streams;
  }
}
