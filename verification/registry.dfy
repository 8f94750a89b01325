/**
 * The parameter classes as a family: `TYPE_MAP` (bots/core/config.py) from a
 * wire tag to a class, `TYPES` (bots/core/cfg_types.py) as the set of classes
 * `isinstance` tests against, and the per-class `from_json`, `load` and
 * `to_json` the configuration container dispatches to.
 *
 * The item parameter class is not part of this model: its three operations
 * are an `ItemCodec` supplied by the caller.
 */
module Registry {
  import opened Values
  import opened Py
  import RgbCodec
  import RangeCodec
  import WaypointCodec

  /** `ItemParam.from_json`, `ItemParam.load` and `ItemParam.to_json`. */
  datatype ItemCodec = ItemCodec(fromJson: Value -> Result<ItemRef>,
                                 load: Value -> Result<ItemRef>,
                                 toJson: ItemRef -> Value)

  /**
   * What the configuration container relies on from the item class, as from
   * every other parameter class: `to_json` writes the tag "Item", and
   * `from_json` reads back what `to_json` wrote.
   */
  ghost predicate Conforms(items: ItemCodec)
  {
    (forall i: ItemRef :: items.toJson(i).VDict? && Lookup(items.toJson(i).entries, "type") == Some(VStr("Item")))
    && (forall i: ItemRef :: items.fromJson(items.toJson(i)) == Ok(i))
  }

  /** The classes listed in `TYPES`. */
  const SourceTypes: set<Kind> := {RgbKind, WaypointKind, RouteKind}

  /** `isinstance(v, CFG_TYPES)` for a registry `reg`. */
  predicate Registered(v: Value, reg: set<Kind>)
  {
    v.VParam? && KindOf(v.p) in reg
  }

  /** The class `TYPE_MAP` names for a tag string. */
  function KindOfTag(s: string): (k: Option<Kind>)
    ensures k.Some? ==> Tag(k.value) == s
  {
    if s == "RGB" then Some(RgbKind)
    else if s == "Range" then Some(RangeKind)
    else if s == "BreakCfg" then Some(BreakCfgKind)
    else if s == "Waypoint" then Some(WaypointKind)
    else if s == "Route" then Some(RouteKind)
    else if s == "Item" then Some(ItemKind)
    else None
  }

  /**
   * `tag in TYPE_MAP` followed by `TYPE_MAP[tag]`: only the six tag strings are
   * keys; a value that cannot be hashed raises `TypeError`.
   */
  function TypeMap(tag: Value): (r: Result<Option<Kind>>)
    ensures r.Err? <==> !Hashable(tag)
    ensures r.Err? ==> r.error == WrongType
    ensures r.Ok? && r.value.Some? ==> tag == VStr(Tag(r.value.value))
  {
    if !Hashable(tag) then Err(WrongType)
    else if tag.VStr? then Ok(KindOfTag(tag.s))
    else Ok(None)
  }

  /** `param_class.from_json(data)` for the class `k`. */
  function FromJson(k: Kind, data: Value, items: ItemCodec): (res: Result<Param>)
    ensures res.Ok? ==> KindOf(res.value) == k
  {
    match k
    case RgbKind => var c :- RgbCodec.FromJson(data); Ok(RgbP(c))
    case RangeKind => var r :- RangeCodec.RangeFromJson(data); Ok(RangeP(r))
    case BreakCfgKind => var b :- RangeCodec.BreakFromJson(data); Ok(BreakP(b))
    case WaypointKind => var w :- WaypointCodec.WaypointFromJson(data); Ok(WaypointP(w))
    case RouteKind => var r :- WaypointCodec.RouteFromJson(data); Ok(RouteP(r))
    case ItemKind => var i :- items.fromJson(data); Ok(ItemP(i))
  }

  /** `param_class.load(value)` for the class `k`. */
  function Load(k: Kind, v: Value, items: ItemCodec): (res: Result<Param>)
    ensures res.Ok? ==> KindOf(res.value) == k
  {
    match k
    case RgbKind => var c :- RgbCodec.Load(v); Ok(RgbP(c))
    case RangeKind => var r :- RangeCodec.LoadRange(v); Ok(RangeP(r))
    case BreakCfgKind => var b :- RangeCodec.LoadBreak(v); Ok(BreakP(b))
    case WaypointKind => var w :- WaypointCodec.LoadWaypoint(v); Ok(WaypointP(w))
    case RouteKind => var r :- WaypointCodec.LoadRoute(v); Ok(RouteP(r))
    case ItemKind => var i :- items.load(v); Ok(ItemP(i))
  }

  /** `p.to_json()`. */
  function ToJson(p: Param, items: ItemCodec): Value
  {
    match p
    case RgbP(c) => RgbCodec.ToJson(c)
    case RangeP(r) => RangeCodec.RangeToJson(r)
    case BreakP(b) => RangeCodec.BreakToJson(b)
    case WaypointP(w) => WaypointCodec.WaypointToJson(w)
    case RouteP(r) => WaypointCodec.RouteToJson(r)
    case ItemP(i) => items.toJson(i)
  }

  // ---------------------------------------------------------------- properties

  /** `TYPE_MAP` has exactly one key per class, and that key is the class's tag. */
  lemma TypeMapIsTag(tag: Value, k: Kind)
    ensures TypeMap(tag) == Ok(Some(k)) <==> tag == VStr(Tag(k))
  {
  }

  /** Every class's `to_json` output carries the class's own tag under "type". */
  lemma ToJsonTagged(p: Param, items: ItemCodec)
    requires Conforms(items)
    ensures ToJson(p, items).VDict?
    ensures Lookup(ToJson(p, items).entries, "type") == Some(VStr(Tag(KindOf(p))))
  {
    if p.ItemP? {
      assert items.toJson(p.item).VDict?;
    }
  }

  /**
   * Every built-in class's `from_json` raises `ValueError` when the dictionary's
   * "type" is not the class's tag, whatever else it holds.
   */
  lemma FromJsonRejectsOtherTags(k: Kind, data: Value, items: ItemCodec)
    requires k != ItemKind
    requires data.VDict? && Lookup(data.entries, "type") != Some(VStr(Tag(k)))
    ensures FromJson(k, data, items) == Err(TagMismatch(Tag(k)))
    ensures FromJson(k, data, items).error.Exc() == ValueError
  {
  }

  /** `from_json(to_json(p))` gives back `p`, for every class. */
  lemma JsonRoundTrip(p: Param, items: ItemCodec)
    requires Conforms(items)
    ensures FromJson(KindOf(p), ToJson(p, items), items) == Ok(p)
  {
    match p
    case RgbP(c) => RgbCodec.JsonRoundTrip(c);
    case RangeP(r) => RangeCodec.RangeJsonRoundTrip(r);
    case BreakP(b) => RangeCodec.BreakJsonRoundTrip(b);
    case WaypointP(w) => WaypointCodec.WaypointJsonRoundTrip(w);
    case RouteP(r) => WaypointCodec.RouteJsonRoundTrip(r);
    case ItemP(i) => assert items.fromJson(items.toJson(i)) == Ok(i);
  }
}
