/** The Xiaomi Mijia thermometer reached over Bluetooth LE: the device state and
    the parser of its data notifications, payloads such as `T=27.3 H=30.4`. */
module XiaomiTH {
  import opened Wrappers
  import opened Text

  const Nul: byte := 0
  const Space: byte := 32
  const TagT: byte := 84   // 'T'
  const TagH: byte := 72   // 'H'

  /** One reading; the device keeps `float32` values, here real numbers. */
  datatype Reading = Reading(temperature: real, humidity: real)

  const NoReading: Reading := Reading(0.0, 0.0)

  /** The device: its address, the last reading and the battery level. */
  datatype Sensor = Sensor(address: string, data: Reading, batteryLevel: nat)

  /** `newXiaomiTH`: no reading yet, battery level 0 (nothing ever updates it). */
  function NewXiaomiTH(address: string): (x: Sensor)
    ensures x.address == address && x.data == NoReading && x.batteryLevel == 0
  {
    Sensor(address, NoReading, 0)
  }

  /** The text of a notification: one trailing NUL dropped, then trimmed. */
  function Payload(req: seq<byte>): (r: seq<byte>)
    requires |req| > 0
    ensures req[|req| - 1] == Nul ==> r == TrimSpace(req[..|req| - 1])
    ensures req[|req| - 1] != Nul ==> r == TrimSpace(req)
  {
    if req[|req| - 1] == Nul then TrimSpace(req[..|req| - 1]) else TrimSpace(req)
  }

  /** A token carries a value for `tag` when it is longer than two bytes and
      starts with `tag`; the value is the text after its second byte (which is
      not looked at), as `strconv.ParseFloat(_, 32)` reads it. */
  function TokenValue(tok: seq<byte>, tag: byte, parseFloat: seq<byte> -> Option<real>): (r: Option<real>)
    ensures r.Some? <==> |tok| > 2 && tok[0] == tag && parseFloat(tok[2..]).Some?
    ensures r.Some? ==> r == parseFloat(tok[2..])
  {
    if |tok| <= 2 || tok[0] != tag then None else parseFloat(tok[2..])
  }

  /** One token applied to the reading being built. */
  function Apply(d: Reading, tok: seq<byte>, parseFloat: seq<byte> -> Option<real>): Reading {
    d.(temperature := TokenValue(tok, TagT, parseFloat).GetOr(d.temperature),
       humidity := TokenValue(tok, TagH, parseFloat).GetOr(d.humidity))
  }

  /** The reading built from the tokens, left to right, starting from zeros. */
  function Decode(tokens: seq<seq<byte>>, parseFloat: seq<byte> -> Option<real>): Reading
  {
    if tokens == [] then NoReading
    else Apply(Decode(tokens[..|tokens| - 1], parseFloat), tokens[|tokens| - 1], parseFloat)
  }

  /** `handleDataNotify`: an empty notification, or one whose trimmed text does
      not split into exactly two space-separated tokens, changes nothing;
      otherwise the reading is replaced as a whole. */
  function HandleDataNotify(x: Sensor, req: seq<byte>, parseFloat: seq<byte> -> Option<real>): (x': Sensor)
    ensures x'.address == x.address && x'.batteryLevel == x.batteryLevel
    ensures req == [] ==> x' == x
    ensures req != [] && |Split(Payload(req), Space)| != 2 ==> x' == x
    ensures req != [] && |Split(Payload(req), Space)| == 2 ==>
              x'.data == Decode(Split(Payload(req), Space), parseFloat)
  {
    if req == [] then x
    else
      var values := Split(Payload(req), Space);
      if |values| != 2 then x
      else x.(data := Decode(values, parseFloat))
  }

  /** Independent statement of the two-token decoding: each quantity comes from
      the last token that carries a parsable value for it, and is 0 when none
      does; the prior reading plays no part. */
  lemma {:induction false} DecodeTwo(a: seq<byte>, b: seq<byte>, parseFloat: seq<byte> -> Option<real>)
    ensures var d := Decode([a, b], parseFloat);
            && d.temperature == (if TokenValue(b, TagT, parseFloat).Some? then TokenValue(b, TagT, parseFloat).value
                                 else TokenValue(a, TagT, parseFloat).GetOr(0.0))
            && d.humidity == (if TokenValue(b, TagH, parseFloat).Some? then TokenValue(b, TagH, parseFloat).value
                              else TokenValue(a, TagH, parseFloat).GetOr(0.0))
  {
    assert [a, b][..1] == [a];
    assert [a][..0] == [];
    assert Decode([a], parseFloat) == Apply(NoReading, a, parseFloat);
    assert Decode([a, b], parseFloat) == Apply(Decode([a], parseFloat), b, parseFloat);
  }

  /** Decoding never reads the prior state: two devices receiving the same
      accepted notification end with the same reading. */
  lemma NotifyReplacesWholesale(x: Sensor, y: Sensor, req: seq<byte>, parseFloat: seq<byte> -> Option<real>)
    requires req != [] && |Split(Payload(req), Space)| == 2
    ensures HandleDataNotify(x, req, parseFloat).data == HandleDataNotify(y, req, parseFloat).data
  {
  }

  /** A NUL terminator makes no difference, unless the text already ends with NUL. */
  lemma NulTerminatorIgnored(x: Sensor, req: seq<byte>, parseFloat: seq<byte> -> Option<real>)
    requires req == [] || req[|req| - 1] != Nul
    ensures HandleDataNotify(x, req + [Nul], parseFloat) == HandleDataNotify(x, req, parseFloat)
  {
    assert (req + [Nul])[..|req|] == req;
    if req == [] {
      assert TrimSpace([]) == [];
      assert Split<byte>([], Space) == [[]];
    }
  }

  /** Two tokens without white space joined by one space split back into
      those two tokens. */
  lemma TwoTokens(a: seq<byte>, b: seq<byte>)
    requires a != [] && b != [] && !IsSpace(a[0]) && !IsSpace(b[|b| - 1])
    requires Space !in a && Space !in b && a[0] != Nul && b[|b| - 1] != Nul
    ensures Split(Payload(a + [Space] + b), Space) == [a, b]
  {
    var text := a + [Space] + b;
    assert text[|text| - 1] == b[|b| - 1];
    assert text[0] == a[0];
    TrimSpaceUntouched(text);
    SplitPrefix(a, Space, b);
    SplitFree(b, Space);
  }

  /** A token `<tag>=<number>` carries the parsed number for its tag only. */
  lemma TaggedToken(tag: byte, v: seq<byte>, parseFloat: seq<byte> -> Option<real>)
    requires |v| > 0
    ensures forall other :: TokenValue([tag, 61] + v, other, parseFloat)
                            == if other == tag then parseFloat(v) else None
  {
    assert ([tag, 61] + v)[2..] == v;
  }

  /** A notification `T=<a> H=<b>` sets the temperature to the number parsed
      from `<a>` and the humidity to the one parsed from `<b>`, 0 for a text the
      parser rejects. */
  lemma NotifyTemperatureHumidity(x: Sensor, a: seq<byte>, b: seq<byte>, parseFloat: seq<byte> -> Option<real>)
    requires a != [] && b != [] && Space !in a && Space !in b
    requires !IsSpace(b[|b| - 1]) && b[|b| - 1] != Nul
    ensures HandleDataNotify(x, [TagT, 61] + a + [Space] + [TagH, 61] + b, parseFloat).data
         == Reading(parseFloat(a).GetOr(0.0), parseFloat(b).GetOr(0.0))
  {
    var tokT := [TagT, 61] + a;
    var tokH := [TagH, 61] + b;
    assert [TagT, 61] + a + [Space] + [TagH, 61] + b == tokT + [Space] + tokH;
    assert tokH[|tokH| - 1] == b[|b| - 1];
    assert Space !in tokT by { assert forall k :: 2 <= k < |tokT| ==> tokT[k] == a[k - 2]; }
    assert Space !in tokH by { assert forall k :: 2 <= k < |tokH| ==> tokH[k] == b[k - 2]; }
    TwoTokens(tokT, tokH);
    TaggedToken(TagT, a, parseFloat);
    TaggedToken(TagH, b, parseFloat);
    DecodeTwo(tokT, tokH, parseFloat);
  }

  /** The device's sample payload `T=27.3 H=30.4` gives temperature 27.3 and
      humidity 30.4, as the float parser reads the two number texts. */
  lemma SamplePayload(x: Sensor, parseFloat: seq<byte> -> Option<real>, t: real, h: real)
    requires parseFloat([50, 55, 46, 51]) == Some(t)   // "27.3"
    requires parseFloat([51, 48, 46, 52]) == Some(h)   // "30.4"
    ensures HandleDataNotify(x, SampleText, parseFloat).data == Reading(t, h)
  {
    var vt: seq<byte> := [50, 55, 46, 51];
    var vh: seq<byte> := [51, 48, 46, 52];
    assert SampleText == [TagT, 61] + vt + [Space] + [TagH, 61] + vh;
    NotifyTemperatureHumidity(x, vt, vh, parseFloat);
  }

  /** The same payload terminated by NUL, as the device sends it. */
  lemma SamplePayloadNulTerminated(x: Sensor, parseFloat: seq<byte> -> Option<real>, t: real, h: real)
    requires parseFloat([50, 55, 46, 51]) == Some(t)
    requires parseFloat([51, 48, 46, 52]) == Some(h)
    ensures HandleDataNotify(x, SampleText + [Nul], parseFloat).data == Reading(t, h)
  {
    SamplePayload(x, parseFloat, t, h);
    NulTerminatorIgnored(x, SampleText, parseFloat);
  }

  /** `T=27.3 H=30.4` */
  const SampleText: seq<byte> := [84, 61, 50, 55, 46, 51, 32, 72, 61, 51, 48, 46, 52]
}
