# Bot configuration, execution control and item lookup — a Dafny model

This project models the sequential logic that the bot scripts rely on. It has four parts.

- **Parameter values** (`bots/core/cfg_types.py`). The classes `RGBParam`, `RangeParam`, `BreakCfgParam`, `WaypointParam` and `RouteParam` each have:
  - a constructor;
  - a loose `load` that accepts several input shapes;
  - the tagged wire form `{"type": <tag>, "value": ...}` written by `to_json` and read by `from_json`;
  - helpers: `to_hex`/`from_hex`, `choose`, `should_break`, `gen_tile` and `reverse`.
- **The configuration container** (`BotConfigMixin` in `bots/core/config.py`).
  - `TYPE_MAP` maps a wire tag to a parameter class.
  - `import_config` decides, key by key, how to decode an incoming value. It looks at the value and at the attribute's current value.
  - `export_config` writes the wire dictionary.
- **Execution control** (`ScriptControl` in `core/control.py`). The terminate and pause flags and the break deadline are treated as a state machine. It has three steps:
  - one check of the `guard` wrapper;
  - `propose_break`;
  - the keyboard handler, with its 0.4-second debounce of the pause key.
- **Item lookup** (`ItemLookup` in `core/item_db.py`). This covers:
  - the rule `_load_data` uses to accept an item record;
  - the lookups by id, by name and by either;
  - the three-pass `search_items`;
  - the filtered, relevance-sorted `search_items_advanced`.

**How Python is represented**
- Python values are the datatype `Values.Value`.
- Dictionaries are association lists in insertion order. A lookup takes the first entry with the key.
- An exception is an `Error` value naming the raise site. `Error.Exc()` gives its Python class.
- Clock readings and random draws are parameters.
- Floats are `real`.
- `str.lower` is modelled on ASCII letters.
- `str.strip` uses Python's whitespace set.

**The parameter registry**
- `bots/core/config.py:1` imports an `ItemParam` that `bots/core/cfg_types.py` does not define.
- `TYPES` (`bots/core/cfg_types.py:391`) is a list. `isinstance` accepts only a class or a tuple of classes, not a list.
- Both mismatches stop the code as written from running, so the model takes the set of registered classes (`reg`) as a parameter. `Registry.SourceTypes` is the list as written.
- The item class's `from_json`, `load` and `to_json` are a parameter (`Registry.ItemCodec`). `Registry.Conforms` states what the container relies on from the item class.

**Modules**
- Files: `values.dfy`, `py.dfy` (Python built-ins), `hex.dfy`, `rgb.dfy`, `range_break.dfy`, `waypoint_route.dfy`, `registry.dfy`, `config.dfy`, `control.dfy`, `item_db.dfy`, `item_search.dfy`.

## Model

| member | source | states |
|---|---|---|
| Py.TaggedValue | bots/core/cfg_types.py:119-124 | `from_json` first compares `data.get("type")` with the class tag. A mismatch raises the tag error before "value" is read. |
| RgbCodec.RangeCheck | bots/core/cfg_types.py:7-8 | The channel check passes iff every channel is a number in 0..255. The first failure decides the error. |
| RgbCodec.NewRgb | bots/core/cfg_types.py:5-11 | Construction succeeds iff every channel is an int in 0..255, and then stores the channels unchanged. An int channel out of range raises `ValueError`. |
| RgbCodec.ToHex | bots/core/cfg_types.py:37-39 | The text is '#' and then six upper-case hexadecimal digits. |
| RgbCodec.FromHex | bots/core/cfg_types.py:58-69 | After every leading '#' is stripped, the length error is raised iff the rest is not exactly 6 characters. Every failure is one of the three listed errors. |
| RgbCodec.FromTuple | bots/core/cfg_types.py:50-55 | A sequence that is not of length 3 raises the length error. Otherwise the result is the constructor's. |
| RgbCodec.Load | bots/core/cfg_types.py:71-84 | A list or tuple of length 3 goes through `from_tuple`, and a string through `from_hex`. Every other shape raises `ValueError`. |
| RgbCodec.FromJson | bots/core/cfg_types.py:118-133 | The wrong tag raises `ValueError`. |
| RgbCodec.HexRoundTrip | bots/core/cfg_types.py:37-69 | `from_hex(to_hex(c)) == c` for every colour. |
| RgbCodec.HexIgnoresHashes | bots/core/cfg_types.py:60 | Any number of leading '#' gives the same result as none. |
| RgbCodec.HexReprint | bots/core/cfg_types.py:37-69 | Hex text that parses prints back as '#' plus the same six digits in upper case. |
| RgbCodec.JsonRoundTrip | bots/core/cfg_types.py:108-133 | `from_json(to_json(c)) == c`. |
| RgbCodec.PrefersHex | bots/core/cfg_types.py:126-128 | For any "RGB" wire dictionary whose value is a dictionary holding "hex", whatever its other keys and their order, the colour is `from_hex` of that entry. |
| RgbCodec.RgbWithoutHex | bots/core/cfg_types.py:126-130 | Without "hex", an "rgb" entry is iterated into a tuple and read by `from_tuple`; an error in either step is raised. |
| RgbCodec.FallsBackToLoad | bots/core/cfg_types.py:126-133 | A value that is not a dictionary, or holds neither key, is read by `load`. |
| RgbCodec.LoadChannels | bots/core/cfg_types.py:72-79 | A list or tuple of three in-range ints loads as exactly those channels. |
| Hex.ByteText | bots/core/cfg_types.py:39 | `{:02X}` prints exactly two characters. |
| Hex.ParseByte | bots/core/cfg_types.py:64-66 | A pair parses iff both characters are hexadecimal digits. |
| Hex.StripHashes | bots/core/cfg_types.py:60 | `lstrip('#')` removes exactly the leading run of '#'. |
| Hex.StripLeadingHashes | bots/core/cfg_types.py:60 | Stripping `n` hashes put in front of a text gives the same result as stripping the text alone. |
| Hex.ByteRoundTrip | bots/core/cfg_types.py:39 | Parsing the two digits printed for a channel gives back the channel. |
| Hex.ByteReprint | bots/core/cfg_types.py:64-66 | A pair that parses prints back in upper case. |
| RangeCodec.LoadRange | bots/core/cfg_types.py:148-152 | The result is `ValueError` unless there are exactly two elements; `len` of a non-sequence raises `TypeError`. The bounds are stored unchecked. |
| RangeCodec.RangeFromJson | bots/core/cfg_types.py:165-170 | Wrong tag gives `ValueError`. Otherwise the result is `load` of "value". |
| RangeCodec.Choose | bots/core/cfg_types.py:154-156 | `uniform` succeeds iff both bounds are numbers. |
| RangeCodec.ChooseWithinBounds | bots/core/cfg_types.py:154-156 | `choose` lies between the bounds, in whichever order they were given. |
| RangeCodec.ChooseEndpoints | bots/core/cfg_types.py:154-156 | Draws 0 and 1 give the two bounds. |
| RangeCodec.NewBreak | bots/core/cfg_types.py:176-187 | The chance is stored as `float(chance)`. A chance that is not a number raises `ValueError` or `TypeError`. |
| RangeCodec.LoadBreak | bots/core/cfg_types.py:197-209 | Exactly two elements are needed. The duration loads as a range. For a list or tuple whose duration loads, success holds iff the chance converts, and a conversion failure becomes `ValueError`. |
| RangeCodec.BreakFromJson | bots/core/cfg_types.py:225-238 | Wrong tag gives `ValueError`. Success needs a "value". |
| RangeCodec.ShouldBreak | bots/core/cfg_types.py:211-213 | A draw in [0, 1) never breaks when the chance is ≤ 0 and always breaks when it is ≥ 1. |
| RangeCodec.RangeJsonRoundTrip | bots/core/cfg_types.py:158-170 | `from_json(to_json(r)) == r`. |
| RangeCodec.RangeLoadValue | bots/core/cfg_types.py:144-152 | `load` of a range's own value pair gives back the range. |
| RangeCodec.BreakJsonRoundTrip | bots/core/cfg_types.py:215-238 | `from_json(to_json(b)) == b`. |
| RangeCodec.BreakLoadValue | bots/core/cfg_types.py:197-209 | `load([[lo, hi], chance])` builds that configuration. |
| WaypointCodec.LoadWaypoint | bots/core/cfg_types.py:277-310 | The results for each input shape: `[[x,y,z],chunk,tol]`, `[[x,y,z],chunk]` (tolerance 5) and `[x,y,z,chunk]` (tolerance 5). Bad coordinates, a missing chunk and a flat list not of length 4 each raise their own `ValueError`. An empty list raises `IndexError`. |
| WaypointCodec.WaypointFromJson | bots/core/cfg_types.py:325-339 | Wrong tag gives `ValueError`. A dictionary value gives exactly its x, y, z and chunk, and its tolerance or 5. |
| WaypointCodec.GenTile | bots/core/cfg_types.py:264-272 | The tile's region id is the waypoint's chunk. |
| WaypointCodec.TileFields | bots/core/cfg_types.py:264-272 | The tile's region coordinates and plane are the waypoint's. Its colour text reads back as the colour. |
| WaypointCodec.Reverse | bots/core/cfg_types.py:356-358 | The new route has the same length, and waypoint i is the original's waypoint from the end. |
| WaypointCodec.ReverseInvolution | bots/core/cfg_types.py:356-358 | Reversing twice gives back the route. |
| WaypointCodec.LoadRoute | bots/core/cfg_types.py:360-363 | Loading succeeds iff every element loads as a waypoint, and the result holds those waypoints in order. |
| WaypointCodec.RouteElement | bots/core/cfg_types.py:380-383 | A dictionary tagged "Waypoint" goes through `from_json`; anything else goes through `load`. |
| WaypointCodec.RouteFromJson | bots/core/cfg_types.py:372-385 | Wrong tag gives `ValueError`. On success there is one waypoint per element, each decoded by the element rule. |
| WaypointCodec.LoadNested | bots/core/cfg_types.py:289-302 | The full nested form loads as exactly that waypoint. |
| WaypointCodec.WaypointJsonRoundTrip | bots/core/cfg_types.py:312-339 | `from_json(to_json(w)) == w`, tolerance included. |
| WaypointCodec.WaypointDefaultTolerance | bots/core/cfg_types.py:331-336 | A wire waypoint without "tolerance" gets tolerance 5. |
| WaypointCodec.RouteJsonRoundTrip | bots/core/cfg_types.py:365-385 | `from_json(to_json(r)) == r`. |
| WaypointCodec.RouteMixedList | bots/core/cfg_types.py:378-385 | A route value that mixes a tagged waypoint and a raw four-element list decodes each element by its own rule. |
| Registry.KindOfTag | bots/core/config.py:7-14 | A tag maps to a class only if the string is that class's tag. |
| Registry.TypeMap | bots/core/config.py:49-51 | The membership test raises `TypeError` iff the tag cannot be hashed. A class is found only for that class's own tag string. |
| Registry.TypeMapIsTag | bots/core/config.py:7-14 | `TYPE_MAP` gives class k exactly for the string tag of k. |
| Registry.FromJson | bots/core/config.py:50-54 | Dispatching `from_json` to a class yields an object of that class. |
| Registry.Load | bots/core/config.py:86-91 | Dispatching `load` to a class yields an object of that class. |
| Registry.ToJsonTagged | bots/core/cfg_types.py:108-116 | Every class's `to_json` is a dictionary tagged with the class's own tag. |
| Registry.FromJsonRejectsOtherTags | bots/core/cfg_types.py:119-122 | Every built-in class's `from_json` raises `ValueError` on another tag, whatever else the dictionary holds. |
| Registry.JsonRoundTrip | bots/core/cfg_types.py:108-133 | `from_json(to_json(p)) == p` for every class. |
| Config.DecodeElement | bots/core/config.py:73-77 | A list element decodes to an object of the list head's class. |
| Config.ImportField | bots/core/config.py:41-94 | The outcome for every case: an unknown key gives `KeyError`; a tagged dictionary is decoded through `TYPE_MAP`, and an unknown tag gives `ValueError`; a primitive takes only a value of its `isinstance` type, and otherwise `TypeError`; a list needs a list and decodes element-wise when headed by a registered object; a registered object goes through `from_json` or `load`; anything else gives `TypeError`. |
| Config.ImportAll | bots/core/config.py:41-94 | The import loop never adds or removes an attribute. |
| Config.ImportedKeysKnown | bots/core/config.py:41-43 | An import that raises nothing met only keys the object has. |
| Config.ImportConfig | bots/core/config.py:32-41 | A config without `items()` raises `AttributeError` and changes nothing. The attribute names are preserved. |
| Config.FailurePoint | bots/core/config.py:41-94 | An import that raises stops at some key k. The object then holds what the keys before k produced, and key k raised that error. |
| Config.NoRollback | bots/core/config.py:41-43 | The same fact as FailurePoint, as an all-inputs statement: there is no rollback. |
| Config.Kept | bots/core/config.py:118-121 | Export keeps exactly the attributes whose name does not start with '_' and whose value is not callable. |
| Config.ElementJson | bots/core/config.py:134-138 | A list element converts iff it is a parameter object. Otherwise `AttributeError`. |
| Config.ExportValue | bots/core/config.py:123-146 | The wire value per case: `to_json` for a registered object; element-wise `to_json` for a list headed by one, which succeeds iff every element is a parameter object; primitives and other lists verbatim; `str()` for anything else. |
| Config.ExportWith | bots/core/config.py:118-146 | An export failure comes from some kept attribute's conversion. |
| Config.ExportAll | bots/core/config.py:118-146 | The only error the export loop raises is `AttributeError`. |
| Config.ExportSucceeds | bots/core/config.py:118-146 | The export succeeds iff every kept attribute's value converts. |
| Config.ExportEntries | bots/core/config.py:118-148 | A successful export has one entry per kept attribute, in order, with its name and converted value. |
| Config.ExportConfig | bots/core/config.py:96-148 | The result is the dictionary of the export loop's entries, and any failure is `AttributeError`. The object is a value, so it is not changed. |
| Config.FieldRoundTrip | bots/core/config.py:48-94 | For one attribute of an exportable kind, importing its exported value gives the value back. |
| Config.ImportAllFixpoint | bots/core/config.py:41-94 | Importing entries that each store the value already held changes nothing and raises nothing. |
| Config.ExportImportRoundTrip | bots/core/config.py:32-148 | `import_config(export_config())` raises nothing and leaves every attribute as it was, when every kept value is of an exportable kind. |
| Control.SetTerminate | core/control.py:109-113 | The setter stores exactly the given value and changes nothing else. |
| Control.SetPause | core/control.py:119-123 | The setter stores exactly the given value and changes nothing else. |
| Control.LastWriteWins | core/control.py:109-123 | The last write to a flag wins, and the two setters commute. |
| Control.GuardStep | core/control.py:137-143 | Cancel iff terminate is requested. Run iff not terminated, not paused and the break is over. Wait otherwise. |
| Control.Guard | core/control.py:129-144 | Over successive polls, the wrapper waits through Wait polls. It raises at the first poll where terminate is set, or runs and returns the function's result unchanged at the first poll where it may run. It keeps waiting iff every poll says Wait. |
| Control.GuardNeverRunsTerminated | core/control.py:137-142 | A guarded call never runs while terminate is set. |
| Control.TerminateWins | core/control.py:70-91 | Once terminate is requested, no sequence of key events clears it, and every later guard check cancels. |
| Control.Trunc | core/control.py:43 | `int()` of a float truncates toward zero. |
| Control.TruncMonotone | core/control.py:43 | `int()` of a float is monotone. |
| Control.InitializeBreak | core/control.py:125-127 | The break ends `seconds` after now. Nothing else changes. |
| Control.ProposeBreak | core/control.py:39-49 | No config changes nothing. A losing draw changes nothing. A winning draw always gives `break_until = now + int(choose())` and changes nothing else. It raises `TypeError` exactly when choosing from the bounds raises, that is when they are not numbers. |
| Control.BreakLength | core/control.py:41-46 | With non-negative bounds `lo <= hi`, a winning draw ends the break between `now + int(lo)` and `now + hi`. |
| Control.Handle | core/control.py:70-91 | Only non-keypad key-down events count. Page Up sets terminate. Page Down flips pause and records the time only after the 0.4 s cooldown. Other keys change nothing, and a set terminate stays set. |
| Control.PageUpAnyCase | core/control.py:76-82 | Every key name that lower-cases to "page up" or "pageup" requests termination on a main-keyboard key-down; from the keypad it changes nothing. |
| Control.PageUpSpellings | core/control.py:76-82 | "Page Up" and "PAGEUP" both request termination. |
| Control.DebouncedPause | core/control.py:83-88 | Two Page Down presses inside the cooldown flip pause only once. |
| ItemDb.PutById | core/item_db.py:140 | Storing under an id adds exactly that id. A new id is appended at the end, as dictionary order keeps it. |
| ItemDb.PutByIdKeeps | core/item_db.py:140 | Storing keeps ids distinct, stores the item, and keeps every item with another id. |
| ItemDb.Put | core/item_db.py:139-141 | Both tables are updated, under the id and under the lower-cased name, and the table invariant is preserved. |
| ItemDb.Accept | core/item_db.py:107-109 | A record is stored iff it is canonical or its id is new. Otherwise the table is unchanged. |
| ItemDb.LoadFrom | core/item_db.py:107-141 | Loading keeps the table invariant, and the ids afterwards are the old ids plus those of the records. |
| ItemDb.LoadData | core/item_db.py:93-141 | The loaded table is valid and holds exactly the records' ids. |
| ItemDb.GetItemById | core/item_db.py:146-150 | Some iff the id is present, and then it is the table's item with that id. |
| ItemDb.GetItemByName | core/item_db.py:152-156 | Some iff the lower-cased name is a key, and then the item's lower-cased name is the lower-cased query. |
| ItemDb.GetItem | core/item_db.py:158-169 | An int (a bool counts as one) goes by id and a string by name. Anything else finds nothing. |
| ItemDb.FindUnique | core/item_db.py:146-150 | In a valid table, the id lookup finds the one item stored under that id. |
| ItemDb.AcceptedIsFound | core/item_db.py:139-156 | Right after an accepted record is stored, both lookups return it. |
| ItemDb.DuplicateIgnored | core/item_db.py:107-109 | A non-canonical record never replaces an item already stored under its id. |
| ItemDb.LoadFromSplit | core/item_db.py:107 | Loading records is loading a prefix of them and then the rest. |
| ItemDb.LoadFromKeeps | core/item_db.py:107-141 | An item stays stored while no later record with its id is canonical. |
| ItemDb.LastCanonicalWins | core/item_db.py:107-141 | The last record for an id, if canonical, is what the id finds after loading. |
| ItemDb.FirstCopyWins | core/item_db.py:107-141 | With no canonical record for an id, the first copy is what the id finds. |
| ItemDb.NameCaseInsensitive | core/item_db.py:152-156 | Name lookup ignores letter case. |
| ItemSearch.MatchesIsRank | core/item_db.py:184-208 | The pass tests (equal, starts-with, contains) are the rank bounds 0, 1 and 2. |
| ItemSearch.Pass | core/item_db.py:185-190 | A pass keeps the results it was given as a prefix and only appends. It stops at the limit, or after one item when the limit is already reached. |
| ItemSearch.SearchItems | core/item_db.py:171-210 | A blank query gives nothing. The result has at most `max(limit, 1)` items. |
| ItemSearch.Passes | core/item_db.py:180-210 | The three passes give at most `max(limit, 1)` items. |
| ItemSearch.PassIsTake | core/item_db.py:185-190 | A pass over distinct ids appends the first items it would keep, cut at the room left. |
| ItemSearch.ExactPass | core/item_db.py:184-190 | The exact pass keeps the exact matches in table order, cut at the limit, or at 1 when the limit is not positive. |
| ItemSearch.LaterPass | core/item_db.py:192-208 | A later pass appends the items of its own rank, cut at the room left. |
| ItemSearch.PassesMatchRanked | core/item_db.py:180-210 | The three passes equal the first `limit` items of the reference order: exact matches, then prefix matches, then the rest, each in table order. |
| ItemSearch.SearchMatchesRanked | core/item_db.py:171-210 | For a non-blank query and limit ≥ 1, `search_items` is the first `limit` items of the reference order. |
| ItemSearch.RankedProperties | core/item_db.py:184-208 | The reference order holds exactly the items whose lower-cased name contains the query, each once, ordered by rank. |
| ItemSearch.SearchProperties | core/item_db.py:171-210 | For limit ≥ 1: at most `limit` items, distinct, each containing the query, exact before prefix before the rest. When fewer than `limit` come back, every matching item came back. |
| ItemSearch.SearchNonPositiveLimit | core/item_db.py:184-190 | As written, limit ≤ 0 returns the first exact match, if any. |
| ItemSearch.ZeroLimitReturnsAnItem | core/item_db.py:186-190 | A table holding "Coal", searched for "coal" with limit 0, returns that item. |
| ItemSearch.SearchItemsBounded | core/item_db.py:171-210 | The corrected search returns at most `max(limit, 0)` items and agrees with `search_items` for limit ≥ 1. |
| ItemSearch.BoundedMatchesRanked | core/item_db.py:171-210 | For every limit and non-blank query, the corrected search is the first `max(limit, 0)` items of the reference order. |
| ItemSearch.ApplyFilters | core/item_db.py:231-243 | An item is kept iff it is in the input and every filter that names one of its attributes matches. |
| ItemSearch.ApplyFiltersKeepsOrder | core/item_db.py:234-243 | The kept items are the input read at strictly increasing positions, and those positions are exactly the ones whose item passes every filter: the append loop keeps the input order. |
| ItemSearch.ApplyFiltersNone | core/item_db.py:232 | No filters keeps every item, in order. |
| ItemSearch.PySlice | core/item_db.py:259 | `xs[:n]` is a prefix of length `min(n, |xs|)`, and for a negative `n` it drops `-n` items from the end. |
| ItemSearch.SortByRelevanceIsStableSort | core/item_db.py:245-257 | The relevance sort is a permutation, ordered by score, and it keeps input order among equal scores. |
| ItemSearch.RelevanceIsRank | core/item_db.py:248-255 | On items that contain the query, the relevance score is the search rank. |
| ItemSearch.SearchItemsAdvanced | core/item_db.py:212-259 | A blank query gives nothing. At most `max(limit, 0)` items. |
| ItemSearch.AdvancedProperties | core/item_db.py:224-259 | Every result passes the filters and came from the base search. The results are ordered by relevance. When fewer than `limit` come back, every base item that passes the filters is among them: only the final cut drops items. |
| ItemSearch.AdvancedWithoutFilters | core/item_db.py:212-259 | With no filters, a lower-cased stripped query and limit ≥ 1, the advanced search equals `search_items`. |
| ItemSearch.AdvancedUnaffectedByLimit | core/item_db.py:228 | Refining the as-written base search gives the same results as refining the corrected one. |
| ItemSearch.RefineNothing | core/item_db.py:257-259 | With limit ≤ 0, refining at most one item keeps nothing. |

## Left out

- The JSON-string wrappers `export_config_json` and `import_config_json` (bots/core/config.py:150-170) are `json.dumps`/`json.loads` around the modelled functions.
- export_config gathers attributes from class annotations along the MRO and then from `__dict__` (bots/core/config.py:105-116). The model takes the resulting ordered attribute list as given.
- Config.ImportField: the `hasattr(self, key)` test of import_config (bots/core/config.py:42) is read on the same attribute list that export_config walks. Python's `hasattr` also sees class attributes without an annotation, which import_config accepts and export_config never writes. Such attributes are not representable in the model: a key for one raises `KeyError` here.
- Some fallbacks are never reached, because every class has `from_json` and `to_json`:
  - the `load(value['value'])` fallback of import_config (bots/core/config.py:55-56);
  - the `{'type', 'value'}` fallbacks of export_config (bots/core/config.py:127-131, 135-138).
- `ItemParam` and `CFG_TYPES` are parameters, for the reasons given above.
- The item class's own codec is not part of this model.
- RgbCodec.NewRgb: accepts only ints (and bools) as channels. A float channel inside 0..255 passes the Python check and then breaks `to_hex`; the model rejects it at construction.
- RgbCodec.FromHex: `int(s, 16)` is modelled on strict hexadecimal digits. Python's leniency (signs, surrounding whitespace, '_') is not modelled.
- RangeCodec.NewBreak: `float()` of a string is not modelled; it fails like any other non-number.
- RangeCodec.Choose: `random.uniform(a, b)` is `a + (b - a) * u` for a draw `u` in [0, 1] given as a parameter. IEEE rounding is not modelled.
- Control.ProposeBreak: one clock reading serves as "now". The logging calls, the listener thread, `keyboard.hook`, the singleton metaclass and the `time.sleep` polling are not modelled.
- Control.Handle: the exception handler around the hook body (core/control.py:92-93) is not modelled. Nothing in the modelled body raises.
- Control.Guard: the sleeps between polls are not modelled. The wrapper is modelled over the finite sequence of (state, clock) pairs it observes.
- ItemDb.Item: the icon (`icon_b64`, icon cropping and base64) is left out, along with `Item.icon` and `Item.get_count` (image work and OCR).
- Reading the two data files in `_load_data` is left out. Records arrive already typed, so the `RuntimeError` for a malformed record is not modelled.
- ItemSearch.PassesFilters: only the twelve data fields are attributes. A filter that names `icon_b64`, `log`, `icon`, `get_count` or a dunder attribute is treated like an unknown key.
- ItemSearch.SearchItems: the result dictionary is modelled as its values in insertion order. `search_items_advanced` takes `.values()` of it.
- `filters=None` is modelled as the empty filter list. Both skip filtering.
- Py.Lower: only ASCII letters are lower-cased. Python's full Unicode case mapping is not modelled.

## Findings

| source | as written | input that shows it | evidently intended | confidence | as-written member | corrected member |
|---|---|---|---|---|---|---|
| core/item_db.py:184-190 | The exact pass tests `count >= limit` only after inserting, so a limit of 0 or less still returns the first exact match. | A table holding "Coal" (id 453), `search_items("coal", limit=0)` returns `{453: Coal}`. | At most `max(limit, 0)` items; nothing for limit ≤ 0. | high; not executed | ItemSearch.SearchItems (ItemSearch.ZeroLimitReturnsAnItem, ItemSearch.SearchNonPositiveLimit) | ItemSearch.SearchItemsBounded (ItemSearch.BoundedMatchesRanked) |

`search_items_advanced` uses the corrected search. ItemSearch.AdvancedUnaffectedByLimit shows that it returns the same results with the search as written: a limit ≤ 0 cuts away the one item that search can return.
