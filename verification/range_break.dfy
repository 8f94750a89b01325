/**
 * `RangeParam` and `BreakCfgParam` (bots/core/cfg_types.py): a pair of bounds
 * stored as given, and a break configuration made of a duration range and a
 * chance.  The random draws of `choose` and `should_break` are parameters.
 */
module RangeCodec {
  import opened Values
  import opened Py

  // ---------------------------------------------------------------- RangeParam

  /** `RangeParam.load`: anything with exactly two elements; the elements are not checked. */
  function LoadRange(v: Value): (res: Result<Range>)
    ensures Len(v).Err? ==> res == Err(WrongType)
    ensures Len(v).Ok? && Len(v).value != 2 ==> res == Err(RangeShape)
    ensures (v.VList? || v.VTuple?) && |v.items| == 2 ==> res == Ok(Range(v.items[0], v.items[1]))
    ensures res.Ok? ==> Len(v) == Ok(2) && Index(v, 0) == Ok(res.value.lo) && Index(v, 1) == Ok(res.value.hi)
    ensures res.Err? ==> res.error.Exc() in {ValueError, TypeError, KeyError}
  {
    var n :- Len(v);
    if n != 2 then Err(RangeShape)
    else
      match (Index(v, 0), Index(v, 1))
      case (Ok(lo), Ok(hi)) => Ok(Range(lo, hi))
      case (Err(e), _) => Err(e)
      case (_, Err(e)) => Err(e)
  }

  /** `RangeParam.to_json`: the tag and the two bounds as a list. */
  function RangeToJson(r: Range): Value
  {
    VDict([("type", VStr("Range")), ("value", VList([r.lo, r.hi]))])
  }

  /** `RangeParam.from_json`: the tag, then `load` of the value. */
  function RangeFromJson(data: Value): (res: Result<Range>)
    ensures data.VDict? && Lookup(data.entries, "type") != Some(VStr("Range")) ==> res == Err(TagMismatch("Range"))
    ensures !data.VDict? ==> res == Err(NoAttribute)
    ensures res.Ok? ==> data.VDict? && Lookup(data.entries, "value").Some?
                        && LoadRange(Lookup(data.entries, "value").value) == res
  {
    var value :- TaggedValue(data, "Range");
    LoadRange(value)
  }

  /**
   * `RangeParam.choose`: `random.uniform(lo, hi)`, which is `lo + (hi - lo) * u`
   * for a draw `u` in [0, 1]; bounds that are not numbers raise `TypeError`.
   */
  function Choose(r: Range, u: real): (res: Result<real>)
    requires 0.0 <= u <= 1.0
    ensures res.Ok? <==> AsNumber(r.lo).Some? && AsNumber(r.hi).Some?
    ensures res.Err? ==> res.error == WrongType
  {
    if AsNumber(r.lo).Some? && AsNumber(r.hi).Some? then
      var a, b := AsNumber(r.lo).value, AsNumber(r.hi).value;
      Ok(a + (b - a) * u)
    else Err(WrongType)
  }

  // ---------------------------------------------------------------- BreakCfgParam

  /**
   * `BreakCfgParam(duration, chance)`: the chance is stored as `float(chance)`.
   * A parameter object has a `value` attribute, which is a tuple or a list, so
   * `float()` of it raises `TypeError` just as `float()` of the object would.
   */
  function NewBreak(duration: Range, chance: Value): (res: Result<BreakCfg>)
    ensures AsNumber(chance).Some? ==> res == Ok(BreakCfg(duration, AsNumber(chance).value))
    ensures AsNumber(chance).None? ==> res.Err? && res.error.Exc() in {ValueError, TypeError}
  {
    var c :- ToFloat(chance);
    Ok(BreakCfg(duration, c))
  }

  /**
   * `BreakCfgParam.load`: exactly two elements, a range and a chance; any
   * failure reading or converting the chance becomes `ValueError`.
   */
  function LoadBreak(v: Value): (res: Result<BreakCfg>)
    ensures Len(v).Ok? && Len(v).value != 2 ==> res == Err(BreakShape)
    ensures res.Ok? ==> Len(v) == Ok(2) && Index(v, 0).Ok? && LoadRange(Index(v, 0).value) == Ok(res.value.duration)
    ensures (v.VList? || v.VTuple?) && |v.items| == 2 && LoadRange(v.items[0]).Ok? ==>
              (res.Ok? <==> AsNumber(v.items[1]).Some?)
    ensures (v.VList? || v.VTuple?) && |v.items| == 2 && LoadRange(v.items[0]).Ok? && AsNumber(v.items[1]).None? ==>
              res == Err(BreakChance)
  {
    var n :- Len(v);
    if n != 2 then Err(BreakShape)
    else
      var first :- Index(v, 0);
      var d :- LoadRange(first);
      match Index(v, 1)
      case Err(_) => Err(BreakChance)
      case Ok(second) =>
        match ToFloat(second)
        case Err(_) => Err(BreakChance)
        case Ok(c) => Ok(BreakCfg(d, c))
  }

  /** `BreakCfgParam.to_json`: the duration's own tagged form and the chance. */
  function BreakToJson(b: BreakCfg): Value
  {
    VDict([("type", VStr("BreakCfg")),
           ("value", VDict([("break_duration", RangeToJson(b.duration)),
                            ("break_chance", VFloat(b.chance))]))])
  }

  /**
   * `BreakCfgParam.from_json`: the tag; then, for a dictionary value, the
   * tagged duration and the chance (errors are not rewritten here); otherwise `load`.
   */
  function BreakFromJson(data: Value): (res: Result<BreakCfg>)
    ensures data.VDict? && Lookup(data.entries, "type") != Some(VStr("BreakCfg")) ==> res == Err(TagMismatch("BreakCfg"))
    ensures res.Ok? ==> data.VDict? && Lookup(data.entries, "value").Some?
  {
    var value :- TaggedValue(data, "BreakCfg");
    if value.VDict? then
      var dj :- Subscript(value, "break_duration");
      var d :- RangeFromJson(dj);
      var c :- Subscript(value, "break_chance");
      NewBreak(d, c)
    else
      LoadBreak(value)
  }

  /**
   * `should_break`: a draw from [0, 1) below the chance.  A chance of zero or
   * less never breaks; a chance of one or more always does.
   */
  function ShouldBreak(b: BreakCfg, draw: real): (r: bool)
    requires 0.0 <= draw < 1.0
    ensures b.chance <= 0.0 ==> !r
    ensures b.chance >= 1.0 ==> r
  {
    draw < b.chance
  }

  // ---------------------------------------------------------------- properties

  /** `x` lies between `a` and `b`, in whichever order they come. */
  predicate Between(x: real, a: real, b: real)
  {
    if a <= b then a <= x <= b else b <= x <= a
  }

  /** The product of two non-negative reals is non-negative. */
  lemma MulNonneg(x: real, y: real)
    requires x >= 0.0 && y >= 0.0
    ensures x * y >= 0.0
  {
  }

  /** `a + (b - a) * u` for `u` in [0, 1] lies between `a` and `b`. */
  lemma UniformWithin(a: real, b: real, u: real)
    requires 0.0 <= u <= 1.0
    ensures Between(a + (b - a) * u, a, b)
  {
    var p := (b - a) * u;
    var q := (b - a) * (1.0 - u);
    assert p + q == b - a;
    if a <= b {
      MulNonneg(b - a, u);
      MulNonneg(b - a, 1.0 - u);
    } else {
      MulNonneg(a - b, u);
      MulNonneg(a - b, 1.0 - u);
      assert (a - b) * u == -p;
      assert (a - b) * (1.0 - u) == -q;
    }
  }

  /** `choose` stays between the two bounds, in whichever order they were given. */
  lemma ChooseWithinBounds(r: Range, u: real)
    requires 0.0 <= u <= 1.0
    requires AsNumber(r.lo).Some? && AsNumber(r.hi).Some?
    ensures Choose(r, u).Ok? && Between(Choose(r, u).value, AsNumber(r.lo).value, AsNumber(r.hi).value)
  {
    UniformWithin(AsNumber(r.lo).value, AsNumber(r.hi).value, u);
  }

  /** The endpoints of the draw give the endpoints of the range. */
  lemma ChooseEndpoints(r: Range)
    requires AsNumber(r.lo).Some? && AsNumber(r.hi).Some?
    ensures Choose(r, 0.0) == Ok(AsNumber(r.lo).value)
    ensures Choose(r, 1.0) == Ok(AsNumber(r.hi).value)
  {
  }

  /** `from_json(to_json(r))` gives back the same bounds. */
  lemma RangeJsonRoundTrip(r: Range)
    ensures RangeFromJson(RangeToJson(r)) == Ok(r)
  {
    var data := RangeToJson(r);
    assert Lookup(data.entries, "type") == Some(VStr("Range"));
    assert Lookup(data.entries, "value") == Some(VList([r.lo, r.hi]));
  }

  /** `load` of a range's own `value` pair gives the range back. */
  lemma RangeLoadValue(r: Range)
    ensures LoadRange(VTuple([r.lo, r.hi])) == Ok(r)
    ensures LoadRange(VList([r.lo, r.hi])) == Ok(r)
  {
  }

  /** `from_json(to_json(b))` gives back the same duration and chance. */
  lemma BreakJsonRoundTrip(b: BreakCfg)
    ensures BreakFromJson(BreakToJson(b)) == Ok(b)
  {
    var data := BreakToJson(b);
    var value := VDict([("break_duration", RangeToJson(b.duration)), ("break_chance", VFloat(b.chance))]);
    assert Lookup(data.entries, "type") == Some(VStr("BreakCfg"));
    assert Lookup(data.entries, "value") == Some(value);
    assert Lookup(value.entries, "break_duration") == Some(RangeToJson(b.duration));
    assert Lookup(value.entries, "break_chance") == Some(VFloat(b.chance));
    RangeJsonRoundTrip(b.duration);
  }

  /** `load` of `[[lo, hi], chance]` builds that configuration. */
  lemma BreakLoadValue(b: BreakCfg)
    ensures LoadBreak(VList([VList([b.duration.lo, b.duration.hi]), VFloat(b.chance)])) == Ok(b)
  {
  }
}
