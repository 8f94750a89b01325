/**
 * `RGBParam` (bots/core/cfg_types.py): strict construction, hex text, the
 * loose `load`, and the tagged wire form `{"type": "RGB", "value": {"rgb", "hex"}}`.
 */
module RgbCodec {
  import opened Values
  import opened Py
  import Hex

  /** A value the model accepts as a channel: an int (or bool) inside 0..255. */
  predicate IntChannel(v: Value)
  {
    (v.VInt? && 0 <= v.i <= 255) || v.VBool?
  }

  /** The channel an accepted value denotes. */
  function ChannelOf(v: Value): Channel
    requires IntChannel(v)
  {
    if v.VBool? then (if v.b then 1 else 0) else v.i
  }

  /** `0 <= val <= 255` for each value in turn, as `all(...)` evaluates it: the first failure decides. */
  function RangeCheck(vs: seq<Value>): (r: Option<Error>)
    ensures r.None? <==> forall i :: 0 <= i < |vs| ==> AsNumber(vs[i]).Some? && 0.0 <= AsNumber(vs[i]).value <= 255.0
    ensures r.Some? ==> r.value == WrongType || r.value == ChannelOutOfRange
    ensures (forall i :: 0 <= i < |vs| ==> AsNumber(vs[i]).Some?) && r.Some? ==> r.value == ChannelOutOfRange
  {
    if |vs| == 0 then None
    else match AsNumber(vs[0])
      case None => Some(WrongType)
      case Some(x) => if 0.0 <= x <= 255.0 then RangeCheck(vs[1..]) else Some(ChannelOutOfRange)
  }

  /**
   * `RGBParam(r, g, b)`: raises `ValueError` when a channel lies outside
   * 0..255 and otherwise stores the channels unchanged.
   */
  function NewRgb(r: Value, g: Value, b: Value): (res: Result<Rgb>)
    ensures res.Ok? <==> IntChannel(r) && IntChannel(g) && IntChannel(b)
    ensures res.Ok? ==> res.value == Rgb(ChannelOf(r), ChannelOf(g), ChannelOf(b))
    ensures (r.VInt? && g.VInt? && b.VInt?) ==>
              (res.Ok? || res == Err(ChannelOutOfRange))
    ensures (r.VInt? && g.VInt? && b.VInt? && !(0 <= r.i <= 255 && 0 <= g.i <= 255 && 0 <= b.i <= 255)) ==>
              res.Err? && res.error.Exc() == ValueError
  {
    match RangeCheck([r, g, b])
    case Some(e) => Err(e)
    case None =>
      assert AsNumber([r, g, b][0]).Some? && AsNumber([r, g, b][1]).Some? && AsNumber([r, g, b][2]).Some?;
      if IntChannel(r) && IntChannel(g) && IntChannel(b) then Ok(Rgb(ChannelOf(r), ChannelOf(g), ChannelOf(b)))
      else Err(ChannelNotInt)
  }

  /** `to_hex`: '#' followed by two upper-case hexadecimal digits per channel. */
  function ToHex(c: Rgb): (h: string)
    ensures |h| == 7 && h[0] == '#'
    ensures forall i :: 1 <= i < 7 ==> '0' <= h[i] <= '9' || 'A' <= h[i] <= 'F'
  {
    "#" + Hex.ByteText(c.r) + Hex.ByteText(c.g) + Hex.ByteText(c.b)
  }

  /**
   * `from_hex`: strips every leading '#', raises `ValueError` unless exactly six
   * characters remain, and reads them as three hexadecimal pairs.
   */
  function FromHex(v: Value): (res: Result<Rgb>)
    ensures !v.VStr? ==> res == Err(NoAttribute)
    ensures v.VStr? ==> (res == Err(HexLength) <==> |Hex.StripHashes(v.s)| != 6)
    ensures res.Err? ==> res.error in {NoAttribute, HexLength, HexFormat}
  {
    if !v.VStr? then Err(NoAttribute)
    else
      var t := Hex.StripHashes(v.s);
      if |t| != 6 then Err(HexLength)
      else
        match (Hex.ParseByte(t[0..2]), Hex.ParseByte(t[2..4]), Hex.ParseByte(t[4..6]))
        case (Some(r), Some(g), Some(b)) => Ok(Rgb(r, g, b))
        case _ => Err(HexFormat)
  }

  /** `from_tuple`: exactly three values, then the constructor. */
  function FromTuple(vs: seq<Value>): (res: Result<Rgb>)
    ensures |vs| != 3 ==> res == Err(RgbTupleLength)
    ensures |vs| == 3 ==> res == NewRgb(vs[0], vs[1], vs[2])
  {
    if |vs| != 3 then Err(RgbTupleLength) else NewRgb(vs[0], vs[1], vs[2])
  }

  /**
   * `RGBParam.load`: a list or tuple of exactly three channels, or a hex
   * string; every other shape raises `ValueError`.
   */
  function Load(v: Value): (res: Result<Rgb>)
    ensures res.Ok? ==> ((v.VList? || v.VTuple?) && |v.items| == 3) || v.VStr?
    ensures !v.VList? && !v.VTuple? && !v.VStr? ==> res == Err(RgbShape)
    ensures (v.VList? || v.VTuple?) && |v.items| != 3 ==> res == Err(RgbShape)
    ensures v.VStr? ==> res == FromHex(v)
  {
    match v
    case VList(xs) => if |xs| == 3 then FromTuple(xs) else Err(RgbShape)
    case VTuple(xs) => if |xs| == 3 then FromTuple(xs) else Err(RgbShape)
    case VStr(_) => FromHex(v)
    case _ => Err(RgbShape)
  }

  /** `to_json`. */
  function ToJson(c: Rgb): Value
  {
    VDict([("type", VStr("RGB")),
           ("value", VDict([("rgb", VTuple(Channels(c))), ("hex", VStr(ToHex(c)))]))])
  }

  /** `from_json`: the tag first, then "hex" in preference to "rgb", then `load`. */
  function FromJson(data: Value): (res: Result<Rgb>)
    ensures data.VDict? && Lookup(data.entries, "type") != Some(VStr("RGB")) ==> res == Err(TagMismatch("RGB"))
  {
    var value :- TaggedValue(data, "RGB");
    if value.VDict? && Lookup(value.entries, "hex").Some? then
      FromHex(Lookup(value.entries, "hex").value)
    else if value.VDict? && Lookup(value.entries, "rgb").Some? then
      var t :- Iter(Lookup(value.entries, "rgb").value);
      FromTuple(t)
    else
      Load(value)
  }

  // ---------------------------------------------------------------- properties

  /** Every hex text `to_hex` prints is read back by `from_hex` as the same colour. */
  lemma HexRoundTrip(c: Rgb)
    ensures FromHex(VStr(ToHex(c))) == Ok(c)
  {
    var h := ToHex(c);
    assert Hex.StripHashes(h) == h[1..];
    var t := h[1..];
    assert t[0..2] == Hex.ByteText(c.r);
    assert t[2..4] == Hex.ByteText(c.g);
    assert t[4..6] == Hex.ByteText(c.b);
    Hex.ByteRoundTrip(c.r);
    Hex.ByteRoundTrip(c.g);
    Hex.ByteRoundTrip(c.b);
  }

  /** Leading '#' characters are insignificant to `from_hex`, however many there are. */
  lemma HexIgnoresHashes(s: string, n: nat)
    ensures FromHex(VStr(Hex.Hashes(n) + s)) == FromHex(VStr(s))
  {
    Hex.StripLeadingHashes(s, n);
  }

  /**
   * Whatever text `from_hex` accepts, `to_hex` prints the same digits back,
   * upper-cased, after a single '#'.
   */
  lemma HexReprint(s: string)
    requires FromHex(VStr(s)).Ok?
    ensures ToHex(FromHex(VStr(s)).value) == "#" + seq(6, i requires 0 <= i < 6 => Hex.UpperChar(Hex.StripHashes(s)[i]))
  {
    var t := Hex.StripHashes(s);
    var c := FromHex(VStr(s)).value;
    Hex.ByteReprint(t[0..2]);
    Hex.ByteReprint(t[2..4]);
    Hex.ByteReprint(t[4..6]);
  }

  /** `to_json` then `from_json` gives back the colour. */
  lemma JsonRoundTrip(c: Rgb)
    ensures FromJson(ToJson(c)) == Ok(c)
  {
    var value := VDict([("rgb", VTuple(Channels(c))), ("hex", VStr(ToHex(c)))]);
    assert Lookup(ToJson(c).entries, "type") == Some(VStr("RGB"));
    assert Lookup(ToJson(c).entries, "value") == Some(value);
    assert Lookup(value.entries, "hex") == Some(VStr(ToHex(c)));
    HexRoundTrip(c);
  }

  /**
   * When the wire value is a dictionary carrying "hex", that entry alone
   * decides the colour, whatever other keys it has and in whatever order.
   */
  lemma PrefersHex(data: Value, v: Value, hex: Value)
    requires data.VDict? && Lookup(data.entries, "type") == Some(VStr("RGB"))
    requires Lookup(data.entries, "value") == Some(v)
    requires v.VDict? && Lookup(v.entries, "hex") == Some(hex)
    ensures FromJson(data) == FromHex(hex)
  {
  }

  /**
   * Without "hex", an "rgb" entry is turned into a tuple and read by
   * `from_tuple`; a value that cannot be iterated raises.
   */
  lemma RgbWithoutHex(data: Value, v: Value, rgb: Value)
    requires data.VDict? && Lookup(data.entries, "type") == Some(VStr("RGB"))
    requires Lookup(data.entries, "value") == Some(v)
    requires v.VDict? && Lookup(v.entries, "hex").None? && Lookup(v.entries, "rgb") == Some(rgb)
    ensures FromJson(data) == match Iter(rgb) case Ok(t) => FromTuple(t) case Err(e) => Err(e)
  {
  }

  /** A wire value with neither key, or not a dictionary, goes to `load`. */
  lemma FallsBackToLoad(data: Value, v: Value)
    requires data.VDict? && Lookup(data.entries, "type") == Some(VStr("RGB"))
    requires Lookup(data.entries, "value") == Some(v)
    requires !(v.VDict? && (Lookup(v.entries, "hex").Some? || Lookup(v.entries, "rgb").Some?))
    ensures FromJson(data) == Load(v)
  {
  }

  /** A list of three in-range ints loads as exactly those channels. */
  lemma LoadChannels(r: Channel, g: Channel, b: Channel)
    ensures Load(VList([VInt(r), VInt(g), VInt(b)])) == Ok(Rgb(r, g, b))
    ensures Load(VTuple([VInt(r), VInt(g), VInt(b)])) == Ok(Rgb(r, g, b))
  {
  }
}
