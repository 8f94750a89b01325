/**
 * The value universe of the bot configuration core.
 *
 * The configuration code is dynamically typed: `load` accepts "whatever the
 * caller passed", `from_json` accepts any dictionary, and a configuration
 * object's attributes may hold any Python value.  `Value` is the closed set of
 * Python values the model distinguishes; the parameter records (`Rgb`,
 * `Range`, `BreakCfg`, `Waypoint`, `Route`) are the state of the classes in
 * bots/core/cfg_types.py.  Both live here because they refer to each other: a
 * waypoint stores its coordinates as raw values (the source never checks
 * them) and a value may be a parameter object.
 */
module Values {

  datatype Option<+T> = None | Some(value: T)

  /** A colour channel; `RGBParam.__init__` refuses anything outside 0..255. */
  type Channel = x: int | 0 <= x <= 255

  /**
   * Python values.  A dictionary is an association list in insertion order
   * (Python dictionaries are ordered); its keys are strings, as in JSON.  A
   * lookup takes the first entry with the key.  A dictionary stands for a
   * Python dict only when its keys are distinct; a list with a repeated key
   * is no Python value, and `len` would count the repetition.
   */
  datatype Value =
    | VNone
    | VBool(b: bool)
    | VInt(i: int)
    | VFloat(f: real)
    | VStr(s: string)
    | VList(items: seq<Value>)
    | VTuple(items: seq<Value>)
    | VDict(entries: seq<(string, Value)>)
    | VParam(p: Param)
    | VCallable
    | VObject(text: string)

  /** `RGBParam`: three channels, each in 0..255. */
  datatype Rgb = Rgb(r: Channel, g: Channel, b: Channel)

  /** `RangeParam`: the bounds are stored as given, without any check. */
  datatype Range = Range(lo: Value, hi: Value)

  /** `BreakCfgParam`: a duration range and a chance already passed through `float()`. */
  datatype BreakCfg = BreakCfg(duration: Range, chance: real)

  /** `WaypointParam`: all five attributes are stored as given. */
  datatype Waypoint = Waypoint(x: Value, y: Value, z: Value, chunk: Value, tolerance: Value)

  /** `RouteParam`: an ordered list of waypoints. */
  datatype Route = Route(waypoints: seq<Waypoint>)

  /** An item parameter as seen by the configuration container: a resolved id and name. */
  datatype ItemRef = ItemRef(id: int, name: string)

  /** An instance of one of the parameter classes. */
  datatype Param =
    | RgbP(rgb: Rgb)
    | RangeP(range: Range)
    | BreakP(brk: BreakCfg)
    | WaypointP(wp: Waypoint)
    | RouteP(route: Route)
    | ItemP(item: ItemRef)

  /** The parameter classes, one per wire-format tag. */
  datatype Kind = RgbKind | RangeKind | BreakCfgKind | WaypointKind | RouteKind | ItemKind

  /** The class a parameter object belongs to. */
  function KindOf(p: Param): Kind
  {
    match p
    case RgbP(_) => RgbKind
    case RangeP(_) => RangeKind
    case BreakP(_) => BreakCfgKind
    case WaypointP(_) => WaypointKind
    case RouteP(_) => RouteKind
    case ItemP(_) => ItemKind
  }

  /** The string each class's `type()` returns. */
  function Tag(k: Kind): string
  {
    match k
    case RgbKind => "RGB"
    case RangeKind => "Range"
    case BreakCfgKind => "BreakCfg"
    case WaypointKind => "Waypoint"
    case RouteKind => "Route"
    case ItemKind => "Item"
  }

  /** The Python exception classes the core raises. */
  datatype Exc = ValueError | KeyError | TypeError | IndexError | AttributeError

  /** Every way an operation of the core can fail, named after where it is raised. */
  datatype Error =
    | ChannelOutOfRange          // RGBParam.__init__: a channel outside 0..255
    | ChannelNotInt              // a numeric channel that is not an int (see README, Left out)
    | RgbTupleLength             // RGBParam.from_tuple: not exactly three values
    | HexLength                  // RGBParam.from_hex: not six characters after the '#'s
    | HexFormat                  // RGBParam.from_hex: a pair that is not hexadecimal
    | RgbShape                   // RGBParam.load: no recognised input shape
    | RangeShape                 // RangeParam.load: not exactly two elements
    | BreakShape                 // BreakCfgParam.load: not exactly two elements
    | BreakChance                // BreakCfgParam.load: float() of the chance failed
    | WaypointCoords             // WaypointParam.load: nested coordinates not of length 3
    | WaypointChunk              // WaypointParam.load: nested form without a chunk
    | WaypointShape              // WaypointParam.load: flat form not of length 4
    | TagMismatch(expected: string)  // from_json: data["type"] is not the class's tag
    | MissingKey(key: Value)     // d[key] on a dictionary without that key
    | NotANumber                 // float() of a string
    | WrongType                  // a builtin applied to a value of the wrong type
    | OutOfBounds                // indexing past the end of a sequence
    | NoAttribute                // a method looked up on a value that lacks it
    | UnknownField(name: string)       // import_config: no such attribute
    | UnknownParamType(tag: Value)     // import_config: tag not in TYPE_MAP
    | FieldTypeMismatch(name: string)  // import_config: primitive of another type
    | ExpectedList(name: string)       // import_config: non-list for a list field
    | UnsupportedField(name: string)   // import_config: field of no handled kind
    | ItemFailure(exc: Exc)            // raised by the item parameter class
  {
    /** The Python exception class raised. */
    function Exc(): Exc
    {
      match this
      case ChannelOutOfRange => ValueError
      case ChannelNotInt => TypeError
      case RgbTupleLength => ValueError
      case HexLength => ValueError
      case HexFormat => ValueError
      case RgbShape => ValueError
      case RangeShape => ValueError
      case BreakShape => ValueError
      case BreakChance => ValueError
      case WaypointCoords => ValueError
      case WaypointChunk => ValueError
      case WaypointShape => ValueError
      case TagMismatch(_) => ValueError
      case MissingKey(_) => KeyError
      case NotANumber => ValueError
      case WrongType => TypeError
      case OutOfBounds => IndexError
      case NoAttribute => AttributeError
      case UnknownField(_) => KeyError
      case UnknownParamType(_) => ValueError
      case FieldTypeMismatch(_) => TypeError
      case ExpectedList(_) => TypeError
      case UnsupportedField(_) => TypeError
      case ItemFailure(e) => e
    }
  }

  /** A computation that returns a value or raises. */
  datatype Result<+T> = Ok(value: T) | Err(error: Error) {
    predicate IsFailure() { Err? }

    function PropagateFailure<U>(): Result<U>
      requires Err?
    {
      Err(error)
    }

    function Extract(): T
      requires Ok?
    {
      value
    }
  }
}
