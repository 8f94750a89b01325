/**
 * `WaypointParam` and `RouteParam` (bots/core/cfg_types.py): a waypoint's
 * five attributes are stored as given; a route is an ordered list of
 * waypoints.  Both have a loose `load` and a tagged wire form.
 */
module WaypointCodec {
  import opened Values
  import opened Py
  import RgbCodec

  /** The tolerance a waypoint gets when none is given. */
  const DefaultTolerance: Value := VInt(5)

  // ---------------------------------------------------------------- WaypointParam

  /**
   * `WaypointParam.load`.  When the first element is a list it holds the
   * coordinates `[x, y, z]`, followed by the chunk and, optionally, the
   * tolerance (further elements are ignored).  Otherwise exactly four
   * elements `x, y, z, chunk` are unpacked.  The tolerance defaults to 5.
   */
  function LoadWaypoint(v: Value): (res: Result<Waypoint>)
    // [[x, y, z], chunk, tolerance, ...] and [[x, y, z], chunk]
    ensures v.VList? && |v.items| >= 2 && v.items[0].VList? && |v.items[0].items| == 3 ==>
              var c := v.items[0].items;
              res == Ok(Waypoint(c[0], c[1], c[2], v.items[1], if |v.items| > 2 then v.items[2] else DefaultTolerance))
    // [x, y, z, chunk]
    ensures (v.VList? || v.VTuple?) && |v.items| == 4 && !v.items[0].VList? ==>
              res == Ok(Waypoint(v.items[0], v.items[1], v.items[2], v.items[3], DefaultTolerance))
    // the three ValueErrors
    ensures (v.VList? || v.VTuple?) && |v.items| > 0 && v.items[0].VList? && |v.items[0].items| != 3 ==>
              res == Err(WaypointCoords)
    ensures (v.VList? || v.VTuple?) && |v.items| == 1 && v.items[0].VList? && |v.items[0].items| == 3 ==>
              res == Err(WaypointChunk)
    ensures (v.VList? || v.VTuple?) && |v.items| > 0 && !v.items[0].VList? && |v.items| != 4 ==>
              res == Err(WaypointShape)
    // `value[0]` of an empty list
    ensures (v.VList? || v.VTuple?) && |v.items| == 0 ==> res == Err(OutOfBounds)
    ensures res.Err? ==> res.error.Exc() in {ValueError, IndexError, KeyError, TypeError}
  {
    var first :- Index(v, 0);
    var n := Len(v).value;
    if first.VList? then
      var coords := first.items;
      if |coords| != 3 then Err(WaypointCoords)
      else if n < 2 then Err(WaypointChunk)
      else
        var chunk := Index(v, 1).value;
        var tolerance := if n > 2 then Index(v, 2).value else DefaultTolerance;
        Ok(Waypoint(coords[0], coords[1], coords[2], chunk, tolerance))
    else if n == 4 then
      var xs := Iter(v).value;
      assert forall i :: 0 <= i < 4 ==> Index(v, i) == Ok(xs[i]);
      Ok(Waypoint(xs[0], xs[1], xs[2], xs[3], DefaultTolerance))
    else
      Err(WaypointShape)
  }

  /** `WaypointParam.to_json`: the tag and the five attributes by name. */
  function WaypointToJson(w: Waypoint): Value
  {
    VDict([("type", VStr("Waypoint")),
           ("value", VDict([("x", w.x), ("y", w.y), ("z", w.z),
                            ("chunk", w.chunk), ("tolerance", w.tolerance)]))])
  }

  /**
   * `WaypointParam.from_json`: the tag; then, for a dictionary value, the keys
   * x, y, z and chunk (each required, in that order) and tolerance (default 5);
   * otherwise `load`.
   */
  function WaypointFromJson(data: Value): (res: Result<Waypoint>)
    ensures data.VDict? && Lookup(data.entries, "type") != Some(VStr("Waypoint")) ==> res == Err(TagMismatch("Waypoint"))
    ensures res.Ok? ==> data.VDict? && Lookup(data.entries, "value").Some?
    ensures res.Ok? && Lookup(data.entries, "value").value.VDict? ==>
              var es := Lookup(data.entries, "value").value.entries;
              Lookup(es, "x") == Some(res.value.x) && Lookup(es, "y") == Some(res.value.y)
              && Lookup(es, "z") == Some(res.value.z) && Lookup(es, "chunk") == Some(res.value.chunk)
              && res.value.tolerance == (if Lookup(es, "tolerance").Some? then Lookup(es, "tolerance").value else DefaultTolerance)
  {
    var value :- TaggedValue(data, "Waypoint");
    if value.VDict? then
      var x :- Subscript(value, "x");
      var y :- Subscript(value, "y");
      var z :- Subscript(value, "z");
      var chunk :- Subscript(value, "chunk");
      var tolerance := match Lookup(value.entries, "tolerance")
                       case Some(t) => t
                       case None => DefaultTolerance;
      Ok(Waypoint(x, y, z, chunk, tolerance))
    else
      LoadWaypoint(value)
  }

  /**
   * `gen_tile`: the tile-marker record for a waypoint — the chunk as region id,
   * x and y as region coordinates, the plane, and the colour as hex text.
   */
  function GenTile(w: Waypoint, color: Rgb): (tile: Value)
    ensures tile.VDict? && Lookup(tile.entries, "regionId") == Some(w.chunk)
  {
    VDict([("regionId", w.chunk), ("regionX", w.x), ("regionY", w.y), ("z", w.z),
           ("color", VStr(RgbCodec.ToHex(color)))])
  }

  // ---------------------------------------------------------------- RouteParam

  /** `reverse`: a new route with the waypoints in the opposite order. */
  function Reverse(r: Route): (rev: Route)
    ensures |rev.waypoints| == |r.waypoints|
    ensures forall i :: 0 <= i < |r.waypoints| ==> rev.waypoints[i] == r.waypoints[|r.waypoints| - 1 - i]
  {
    Route(seq(|r.waypoints|, i requires 0 <= i < |r.waypoints| => r.waypoints[|r.waypoints| - 1 - i]))
  }

  /** `RouteParam.load`: `WaypointParam.load` of every element, in order. */
  function LoadRoute(v: Value): (res: Result<Route>)
    ensures Iter(v).Err? ==> res == Err(WrongType)
    ensures Iter(v).Ok? ==> (res.Ok? <==> forall i :: 0 <= i < |Iter(v).value| ==> LoadWaypoint(Iter(v).value[i]).Ok?)
    ensures res.Ok? ==> |res.value.waypoints| == |Iter(v).value|
                        && forall i :: 0 <= i < |Iter(v).value| ==> LoadWaypoint(Iter(v).value[i]) == Ok(res.value.waypoints[i])
  {
    var xs :- Iter(v);
    var ws :- MapAll(xs, LoadWaypoint);
    Ok(Route(ws))
  }

  /** How `RouteParam.from_json` decodes one element: tagged waypoints by `from_json`, the rest by `load`. */
  function RouteElement(e: Value): (res: Result<Waypoint>)
    ensures e.VDict? && Lookup(e.entries, "type") == Some(VStr("Waypoint")) ==> res == WaypointFromJson(e)
    ensures !(e.VDict? && Lookup(e.entries, "type") == Some(VStr("Waypoint"))) ==> res == LoadWaypoint(e)
  {
    if e.VDict? && Lookup(e.entries, "type") == Some(VStr("Waypoint")) then WaypointFromJson(e) else LoadWaypoint(e)
  }

  /** `RouteParam.to_json`: the tag and the list of the waypoints' own tagged forms. */
  function RouteToJson(r: Route): Value
  {
    VDict([("type", VStr("Route")),
           ("value", VList(seq(|r.waypoints|, i requires 0 <= i < |r.waypoints| => WaypointToJson(r.waypoints[i]))))])
  }

  /** `RouteParam.from_json`: the tag, then every element of the value, in order. */
  function RouteFromJson(data: Value): (res: Result<Route>)
    ensures data.VDict? && Lookup(data.entries, "type") != Some(VStr("Route")) ==> res == Err(TagMismatch("Route"))
    ensures res.Ok? ==> data.VDict? && Lookup(data.entries, "value").Some?
                        && var xs := Iter(Lookup(data.entries, "value").value);
                           xs.Ok? && |res.value.waypoints| == |xs.value|
                           && forall i :: 0 <= i < |xs.value| ==> RouteElement(xs.value[i]) == Ok(res.value.waypoints[i])
  {
    var value :- TaggedValue(data, "Route");
    var xs :- Iter(value);
    var ws :- MapAll(xs, RouteElement);
    Ok(Route(ws))
  }

  // ---------------------------------------------------------------- properties

  /** The nested list form with every attribute given loads as exactly that waypoint. */
  lemma LoadNested(w: Waypoint)
    ensures LoadWaypoint(VList([VList([w.x, w.y, w.z]), w.chunk, w.tolerance])) == Ok(w)
  {
  }

  /** `from_json(to_json(w))` reproduces the waypoint, tolerance included. */
  lemma WaypointJsonRoundTrip(w: Waypoint)
    ensures WaypointFromJson(WaypointToJson(w)) == Ok(w)
  {
    var value := VDict([("x", w.x), ("y", w.y), ("z", w.z), ("chunk", w.chunk), ("tolerance", w.tolerance)]);
    var data := WaypointToJson(w);
    assert Lookup(data.entries, "type") == Some(VStr("Waypoint"));
    assert Lookup(data.entries, "value") == Some(value);
    assert Lookup(value.entries, "x") == Some(w.x);
    assert Lookup(value.entries, "y") == Some(w.y);
    LookupAt(value.entries, "z", 2);
    LookupAt(value.entries, "chunk", 3);
    LookupAt(value.entries, "tolerance", 4);
  }

  /** A wire waypoint without "tolerance" gets tolerance 5. */
  lemma WaypointDefaultTolerance(x: Value, y: Value, z: Value, chunk: Value)
    ensures WaypointFromJson(VDict([("type", VStr("Waypoint")),
                                    ("value", VDict([("x", x), ("y", y), ("z", z), ("chunk", chunk)]))]))
            == Ok(Waypoint(x, y, z, chunk, DefaultTolerance))
  {
    var value := VDict([("x", x), ("y", y), ("z", z), ("chunk", chunk)]);
    var data := VDict([("type", VStr("Waypoint")), ("value", value)]);
    assert Lookup(data.entries, "type") == Some(VStr("Waypoint"));
    assert Lookup(data.entries, "value") == Some(value);
    assert Lookup(value.entries, "x") == Some(x);
    assert Lookup(value.entries, "y") == Some(y);
    LookupAt(value.entries, "z", 2);
    LookupAt(value.entries, "chunk", 3);
    assert Lookup(value.entries, "tolerance") == None;
  }

  /**
   * The tile's region coordinates and plane are the waypoint's, and its colour
   * text reads back as the colour given.
   */
  lemma TileFields(w: Waypoint, color: Rgb)
    ensures Lookup(GenTile(w, color).entries, "regionX") == Some(w.x)
    ensures Lookup(GenTile(w, color).entries, "regionY") == Some(w.y)
    ensures Lookup(GenTile(w, color).entries, "z") == Some(w.z)
    ensures Lookup(GenTile(w, color).entries, "color").Some?
    ensures RgbCodec.FromHex(Lookup(GenTile(w, color).entries, "color").value) == Ok(color)
  {
    var es := GenTile(w, color).entries;
    LookupAt(es, "regionY", 2);
    LookupAt(es, "z", 3);
    LookupAt(es, "color", 4);
    RgbCodec.HexRoundTrip(color);
  }

  /** Reversing twice gives back the original route. */
  lemma ReverseInvolution(r: Route)
    ensures Reverse(Reverse(r)) == r
  {
    assert Reverse(Reverse(r)).waypoints == r.waypoints;
  }

  /** `from_json(to_json(r))` reproduces the route, waypoint by waypoint. */
  lemma RouteJsonRoundTrip(r: Route)
    ensures RouteFromJson(RouteToJson(r)) == Ok(r)
  {
    var data := RouteToJson(r);
    var items := seq(|r.waypoints|, i requires 0 <= i < |r.waypoints| => WaypointToJson(r.waypoints[i]));
    assert Lookup(data.entries, "type") == Some(VStr("Route"));
    assert Lookup(data.entries, "value") == Some(VList(items));
    forall i | 0 <= i < |items|
      ensures RouteElement(items[i]) == Ok(r.waypoints[i])
    {
      assert Lookup(items[i].entries, "type") == Some(VStr("Waypoint"));
      WaypointJsonRoundTrip(r.waypoints[i]);
    }
    var ws := MapAll(items, RouteElement);
    assert ws.Ok? && ws.value == r.waypoints;
  }

  /**
   * A route whose value mixes tagged waypoints and raw `load` shapes decodes
   * each element by its own rule.
   */
  lemma RouteMixedList(w: Waypoint, x: Value, y: Value, z: Value, chunk: Value)
    requires !x.VList?
    ensures RouteFromJson(VDict([("type", VStr("Route")),
                                 ("value", VList([WaypointToJson(w), VList([x, y, z, chunk])]))]))
            == Ok(Route([w, Waypoint(x, y, z, chunk, DefaultTolerance)]))
  {
    var items := [WaypointToJson(w), VList([x, y, z, chunk])];
    var data := VDict([("type", VStr("Route")), ("value", VList(items))]);
    assert Lookup(data.entries, "type") == Some(VStr("Route"));
    assert Lookup(data.entries, "value") == Some(VList(items));
    assert Lookup(items[0].entries, "type") == Some(VStr("Waypoint"));
    WaypointJsonRoundTrip(w);
    var w2 := Waypoint(x, y, z, chunk, DefaultTolerance);
    assert RouteElement(items[0]) == Ok(w);
    assert RouteElement(items[1]) == Ok(w2);
    var m := MapAll(items, RouteElement);
    assert m.Ok? && |m.value| == 2 && m.value[0] == w && m.value[1] == w2;
    assert m.value == [w, w2];
  }
}
