/**
 * `BotConfigMixin` (bots/core/config.py): a configuration object is its
 * attributes, name and value in order.  `import_config` walks an incoming
 * dictionary and overwrites one attribute per key, deciding how to decode the
 * value from the value itself and from the attribute's current value;
 * `export_config` produces the wire dictionary.
 *
 * `reg` is the set of classes `isinstance(x, CFG_TYPES)` accepts, `items` the
 * item parameter class, and `show` is `str()` of a value of no handled kind.
 */
module Config {
  import opened Values
  import opened Py
  import opened Registry

  /**
   * The attributes of a configuration object, in the order `export_config`
   * visits them.  The same list answers `hasattr` in `import_config`, so a
   * class attribute without an annotation, which `hasattr` sees but the
   * export never visits, is not an attribute here.
   */
  type Attrs = seq<(string, Value)>

  function Names(attrs: Attrs): (r: seq<string>)
    ensures |r| == |attrs| && forall i :: 0 <= i < |attrs| ==> r[i] == attrs[i].0
  {
    seq(|attrs|, i requires 0 <= i < |attrs| => attrs[i].0)
  }

  /** No two attributes share a name. */
  predicate DistinctNames(attrs: Attrs)
  {
    forall i, j :: 0 <= i < j < |attrs| ==> attrs[i].0 != attrs[j].0
  }

  /** `setattr(obj, name, v)` on an attribute the object has. */
  function SetAttr(attrs: Attrs, name: string, v: Value): (r: Attrs)
    ensures Names(r) == Names(attrs)
    ensures Lookup(attrs, name).Some? ==> Lookup(r, name) == Some(v)
    ensures forall n :: n != name ==> Lookup(r, n) == Lookup(attrs, n)
  {
    if |attrs| == 0 then []
    else if attrs[0].0 == name then [(name, v)] + attrs[1..]
    else [attrs[0]] + SetAttr(attrs[1..], name, v)
  }

  // ---------------------------------------------------------------- import_config

  /** int, float, str or bool. */
  predicate IsPrimitive(v: Value)
  {
    v.VBool? || v.VInt? || v.VFloat? || v.VStr?
  }

  /** `isinstance(value, type(current))`; bool is a subclass of int. */
  predicate SameType(value: Value, current: Value)
    requires IsPrimitive(current)
  {
    match current
    case VBool(_) => value.VBool?
    case VInt(_) => value.VInt? || value.VBool?
    case VFloat(_) => value.VFloat?
    case VStr(_) => value.VStr?
  }

  /** `isinstance(v, dict) and 'type' in v`. */
  predicate IsTagged(v: Value)
  {
    v.VDict? && Lookup(v.entries, "type").Some?
  }

  /** How one element of a list of parameters is decoded: tagged by `from_json`, the rest by `load`. */
  function DecodeElement(k: Kind, x: Value, items: ItemCodec): (res: Result<Param>)
    ensures res.Ok? ==> KindOf(res.value) == k
  {
    if IsTagged(x) then FromJson(k, x, items) else Load(k, x, items)
  }

  /** The list of parameter objects a list of decoded parameters becomes. */
  function ParamValues(ps: seq<Param>): (r: seq<Value>)
    ensures |r| == |ps| && forall i :: 0 <= i < |ps| ==> r[i] == VParam(ps[i])
  {
    seq(|ps|, i requires 0 <= i < |ps| => VParam(ps[i]))
  }

  /**
   * The new value of attribute `key` for the incoming `value`, or the
   * exception that `import_config` raises for this key.
   */
  function ImportField(attrs: Attrs, key: string, value: Value, reg: set<Kind>, items: ItemCodec): (res: Result<Value>)
    // an attribute the object does not have
    ensures Lookup(attrs, key).None? ==> res == Err(UnknownField(key))
    // a tagged dictionary is decoded by TYPE_MAP, whatever the attribute holds now
    ensures Lookup(attrs, key).Some? && IsTagged(value) ==>
              var tag := Lookup(value.entries, "type").value;
              match TypeMap(tag)
              case Err(e) => res == Err(e)
              case Ok(None) => res == Err(UnknownParamType(tag))
              case Ok(Some(k)) => res == (match FromJson(k, value, items)
                                          case Ok(p) => Ok(VParam(p))
                                          case Err(e) => Err(e))
    // a primitive attribute takes only a value of its own type
    ensures Lookup(attrs, key).Some? && !IsTagged(value) && IsPrimitive(Lookup(attrs, key).value) ==>
              res == (if SameType(value, Lookup(attrs, key).value) then Ok(value) else Err(FieldTypeMismatch(key)))
    // a list attribute takes only a list
    ensures Lookup(attrs, key).Some? && !IsTagged(value) && Lookup(attrs, key).value.VList? && !value.VList? ==>
              res == Err(ExpectedList(key))
    // ... verbatim unless the current list starts with a registered parameter
    ensures Lookup(attrs, key).Some? && Lookup(attrs, key).value.VList? && value.VList?
            && !(|Lookup(attrs, key).value.items| > 0 && Registered(Lookup(attrs, key).value.items[0], reg)) ==>
              res == Ok(value)
    // ... and then element by element with that parameter's class
    ensures Lookup(attrs, key).Some? && Lookup(attrs, key).value.VList? && value.VList?
            && |Lookup(attrs, key).value.items| > 0 && Registered(Lookup(attrs, key).value.items[0], reg) ==>
              var k := KindOf(Lookup(attrs, key).value.items[0].p);
              (res.Ok? <==> forall i :: 0 <= i < |value.items| ==> DecodeElement(k, value.items[i], items).Ok?)
              && (res.Ok? ==> res.value.VList? && |res.value.items| == |value.items|
                              && forall i :: 0 <= i < |value.items| ==> res.value.items[i] == VParam(DecodeElement(k, value.items[i], items).value))
    // a registered parameter attribute: from_json for any dictionary, load otherwise
    ensures Lookup(attrs, key).Some? && !IsTagged(value) && Registered(Lookup(attrs, key).value, reg) ==>
              var k := KindOf(Lookup(attrs, key).value.p);
              var dec := if value.VDict? then FromJson(k, value, items) else Load(k, value, items);
              res == (match dec case Ok(p) => Ok(VParam(p)) case Err(e) => Err(e))
    // anything else is unsupported
    ensures Lookup(attrs, key).Some? && !IsTagged(value) && !IsPrimitive(Lookup(attrs, key).value)
            && !Lookup(attrs, key).value.VList? && !Registered(Lookup(attrs, key).value, reg) ==>
              res == Err(UnsupportedField(key))
  {
    match Lookup(attrs, key)
    case None => Err(UnknownField(key))
    case Some(current) =>
      if IsTagged(value) then
        var tag := Lookup(value.entries, "type").value;
        var k :- TypeMap(tag);
        match k
        case None => Err(UnknownParamType(tag))
        case Some(kind) =>
          var p :- FromJson(kind, value, items);
          Ok(VParam(p))
      else if IsPrimitive(current) then
        if SameType(value, current) then Ok(value) else Err(FieldTypeMismatch(key))
      else if current.VList? then
        if !value.VList? then Err(ExpectedList(key))
        else if |current.items| > 0 && Registered(current.items[0], reg) then
          var kind := KindOf(current.items[0].p);
          var ps :- MapAll(value.items, x => DecodeElement(kind, x, items));
          Ok(VList(ParamValues(ps)))
        else Ok(value)
      else if Registered(current, reg) then
        var kind := KindOf(current.p);
        var p :- if value.VDict? then FromJson(kind, value, items) else Load(kind, value, items);
        Ok(VParam(p))
      else Err(UnsupportedField(key))
  }

  /** The object after an import, and the exception that stopped it, if any. */
  datatype Imported = Imported(attrs: Attrs, failure: Option<Error>)

  /**
   * The loop of `import_config`: keys in order, each decoded against the
   * attributes as earlier keys left them.  The first failure stops the loop and
   * the attributes already set stay set.
   */
  function ImportAll(attrs: Attrs, es: seq<(string, Value)>, reg: set<Kind>, items: ItemCodec): (r: Imported)
    ensures Names(r.attrs) == Names(attrs)
    decreases |es|
  {
    if |es| == 0 then Imported(attrs, None)
    else
      match ImportField(attrs, es[0].0, es[0].1, reg, items)
      case Err(e) => Imported(attrs, Some(e))
      case Ok(v) => ImportAll(SetAttr(attrs, es[0].0, v), es[1..], reg, items)
  }

  /** An import that raises nothing only met keys the object already had. */
  lemma {:induction false} ImportedKeysKnown(attrs: Attrs, es: seq<(string, Value)>, reg: set<Kind>, items: ItemCodec)
    ensures ImportAll(attrs, es, reg, items).failure.None? ==> forall i :: 0 <= i < |es| ==> Lookup(attrs, es[i].0).Some?
    decreases |es|
  {
    if |es| > 0 {
      var f := ImportField(attrs, es[0].0, es[0].1, reg, items);
      if f.Ok? {
        var next := SetAttr(attrs, es[0].0, f.value);
        ImportedKeysKnown(next, es[1..], reg, items);
        if ImportAll(attrs, es, reg, items).failure.None? {
          KnownStep(attrs, es, f.value);
        }
      }
    }
  }

  /** Keys the object has after storing the first key's value, it had before. */
  lemma KnownStep(attrs: Attrs, es: seq<(string, Value)>, v: Value)
    requires |es| > 0 && Lookup(attrs, es[0].0).Some?
    requires forall i :: 0 <= i < |es[1..]| ==> Lookup(SetAttr(attrs, es[0].0, v), es[1..][i].0).Some?
    ensures forall i :: 0 <= i < |es| ==> Lookup(attrs, es[i].0).Some?
  {
    forall i | 1 <= i < |es| ensures Lookup(attrs, es[i].0).Some? {
      assert es[1..][i - 1] == es[i];
    }
  }

  /** `import_config(config)`; a `config` that is not a dictionary has no `items()`. */
  function ImportConfig(attrs: Attrs, config: Value, reg: set<Kind>, items: ItemCodec): (r: Imported)
    ensures !config.VDict? ==> r == Imported(attrs, Some(NoAttribute))
    ensures Names(r.attrs) == Names(attrs)
  {
    if config.VDict? then ImportAll(attrs, config.entries, reg, items) else Imported(attrs, Some(NoAttribute))
  }

  // ---------------------------------------------------------------- export_config

  /** Names starting with '_' and callable values are not exported. */
  predicate Skipped(name: string, v: Value)
  {
    StartsWith(name, "_") || v.VCallable?
  }

  /** The attributes `export_config` writes, in order. */
  function Kept(attrs: Attrs): (r: Attrs)
    ensures forall x :: x in r <==> x in attrs && !Skipped(x.0, x.1)
  {
    if |attrs| == 0 then []
    else if Skipped(attrs[0].0, attrs[0].1) then Kept(attrs[1..])
    else [attrs[0]] + Kept(attrs[1..])
  }

  /**
   * The wire form of one element of a list headed by a parameter:
   * `item.to_json()`, which an element without that method (anything but a
   * parameter object) cannot provide.
   */
  function ElementJson(x: Value, items: ItemCodec): (r: Result<Value>)
    ensures r.Ok? <==> x.VParam?
    ensures r.Err? ==> r.error == NoAttribute
  {
    if x.VParam? then Ok(ToJson(x.p, items)) else Err(NoAttribute)
  }

  /** The wire value `export_config` writes for one attribute value. */
  function ExportValue(v: Value, reg: set<Kind>, items: ItemCodec, show: Value -> string): (res: Result<Value>)
    ensures Registered(v, reg) ==> res == Ok(ToJson(v.p, items))
    ensures v.VList? && |v.items| > 0 && Registered(v.items[0], reg) ==>
              (res.Ok? <==> forall i :: 0 <= i < |v.items| ==> v.items[i].VParam?)
              && (res.Ok? ==> res.value.VList? && |res.value.items| == |v.items|
                              && forall i :: 0 <= i < |v.items| ==> res.value.items[i] == ToJson(v.items[i].p, items))
    ensures IsPrimitive(v) || (v.VList? && !(|v.items| > 0 && Registered(v.items[0], reg))) ==> res == Ok(v)
    ensures !Registered(v, reg) && !IsPrimitive(v) && !v.VList? ==> res == Ok(VStr(show(v)))
    ensures res.Err? ==> res.error == NoAttribute
  {
    if Registered(v, reg) then Ok(ToJson(v.p, items))
    else if v.VList? && |v.items| > 0 && Registered(v.items[0], reg) then
      var js :- MapAll(v.items, x => ElementJson(x, items));
      Ok(VList(js))
    else if IsPrimitive(v) || v.VList? then Ok(v)
    else Ok(VStr(show(v)))
  }

  /**
   * The loop of `export_config`: every kept attribute, in order, under its
   * name with the value `wire` gives for it; the first failing conversion
   * stops the loop.
   */
  function ExportWith(attrs: Attrs, wire: Value -> Result<Value>): (res: Result<seq<(string, Value)>>)
    ensures res.Err? ==> exists x :: x in attrs && !Skipped(x.0, x.1) && wire(x.1) == Err(res.error)
    decreases |attrs|
  {
    if |attrs| == 0 then Ok([])
    else if Skipped(attrs[0].0, attrs[0].1) then
      var r := ExportWith(attrs[1..], wire);
      assert forall x :: x in attrs[1..] ==> x in attrs;
      r
    else
      match wire(attrs[0].1)
      case Err(e) => Err(e)
      case Ok(v) =>
        match ExportWith(attrs[1..], wire)
        case Err(e) =>
          assert forall x :: x in attrs[1..] ==> x in attrs;
          Err(e)
        case Ok(rest) => Ok([(attrs[0].0, v)] + rest)
  }

  /** The entries of the exported dictionary; an element that is not a parameter raises `AttributeError`. */
  function ExportAll(attrs: Attrs, reg: set<Kind>, items: ItemCodec, show: Value -> string): (res: Result<seq<(string, Value)>>)
    ensures res.Err? ==> res.error == NoAttribute
  {
    ExportWith(attrs, v => ExportValue(v, reg, items, show))
  }

  /** The export loop succeeds exactly when every kept attribute's value converts. */
  lemma {:induction false} ExportSucceeds(attrs: Attrs, wire: Value -> Result<Value>)
    ensures ExportWith(attrs, wire).Ok? <==> forall i :: 0 <= i < |Kept(attrs)| ==> wire(Kept(attrs)[i].1).Ok?
    decreases |attrs|
  {
    if |attrs| > 0 {
      ExportSucceeds(attrs[1..], wire);
      KeptStep(attrs);
    }
  }

  /** A successful export holds one entry per kept attribute, in order, under its name, with its converted value. */
  lemma {:induction false} ExportEntries(attrs: Attrs, wire: Value -> Result<Value>)
    ensures var res := ExportWith(attrs, wire);
            res.Ok? ==> |res.value| == |Kept(attrs)|
                        && forall i :: 0 <= i < |Kept(attrs)| ==>
                             res.value[i].0 == Kept(attrs)[i].0 && wire(Kept(attrs)[i].1) == Ok(res.value[i].1)
    decreases |attrs|
  {
    if |attrs| > 0 {
      ExportEntries(attrs[1..], wire);
      KeptStep(attrs);
      var res := ExportWith(attrs, wire);
      if !Skipped(attrs[0].0, attrs[0].1) && res.Ok? {
        var rest := ExportWith(attrs[1..], wire).value;
        var k, tail := Kept(attrs), Kept(attrs[1..]);
        forall i | 1 <= i < |k|
          ensures res.value[i].0 == k[i].0 && wire(k[i].1) == Ok(res.value[i].1)
        {
          assert res.value[i] == rest[i - 1] && k[i] == tail[i - 1];
        }
      }
    }
  }

  /** The kept attributes of a list: those of its tail, behind its head unless the head is skipped. */
  lemma KeptStep(attrs: Attrs)
    requires |attrs| > 0
    ensures Skipped(attrs[0].0, attrs[0].1) ==> Kept(attrs) == Kept(attrs[1..])
    ensures !Skipped(attrs[0].0, attrs[0].1) ==>
              Kept(attrs) == [attrs[0]] + Kept(attrs[1..])
              && forall i :: 1 <= i < |Kept(attrs)| ==> Kept(attrs)[i] == Kept(attrs[1..])[i - 1]
  {
  }

  /** `export_config()`: the object itself is left as it was. */
  function ExportConfig(attrs: Attrs, reg: set<Kind>, items: ItemCodec, show: Value -> string): (res: Result<Value>)
    ensures res.Ok? ==> res.value.VDict? && ExportAll(attrs, reg, items, show) == Ok(res.value.entries)
    ensures res.Err? ==> res.error.Exc() == AttributeError
  {
    var es :- ExportAll(attrs, reg, items, show);
    Ok(VDict(es))
  }

  // ---------------------------------------------------------------- properties

  /** Importing a prefix that starts with a key that succeeds is importing the rest of it afterwards. */
  lemma PrefixStep(attrs: Attrs, es: seq<(string, Value)>, reg: set<Kind>, items: ItemCodec, v: Value, k: nat)
    requires k < |es| && ImportField(attrs, es[0].0, es[0].1, reg, items) == Ok(v)
    ensures ImportAll(attrs, es[..k + 1], reg, items) == ImportAll(SetAttr(attrs, es[0].0, v), es[1..][..k], reg, items)
  {
    assert es[..k + 1][0] == es[0];
    assert es[..k + 1][1..] == es[1..][..k];
  }

  /** The key at which an import stopped, with the object as the keys before it left it. */
  lemma {:induction false} FailurePoint(attrs: Attrs, es: seq<(string, Value)>, reg: set<Kind>, items: ItemCodec) returns (k: nat)
    requires ImportAll(attrs, es, reg, items).failure.Some?
    ensures var r := ImportAll(attrs, es, reg, items);
            k < |es| && ImportAll(attrs, es[..k], reg, items) == Imported(r.attrs, None)
            && ImportField(r.attrs, es[k].0, es[k].1, reg, items) == Err(r.failure.value)
    decreases |es|
  {
    var r := ImportAll(attrs, es, reg, items);
    match ImportField(attrs, es[0].0, es[0].1, reg, items)
    case Err(e) =>
      assert es[..0] == [];
      k := 0;
    case Ok(v) =>
      var next := SetAttr(attrs, es[0].0, v);
      assert ImportAll(attrs, es, reg, items) == ImportAll(next, es[1..], reg, items);
      var k' := FailurePoint(next, es[1..], reg, items);
      PrefixStep(attrs, es, reg, items, v, k');
      assert es[1..][k'] == es[k' + 1];
      k := k' + 1;
  }

  /**
   * `import_config` has no rollback: when it raises at key `k`, the object
   * holds exactly what importing the keys before `k` produced.
   */
  lemma NoRollback(attrs: Attrs, es: seq<(string, Value)>, reg: set<Kind>, items: ItemCodec)
    ensures var r := ImportAll(attrs, es, reg, items);
            r.failure.Some? ==>
              exists k :: 0 <= k < |es| && ImportAll(attrs, es[..k], reg, items) == Imported(r.attrs, None)
                          && ImportField(r.attrs, es[k].0, es[k].1, reg, items) == Err(r.failure.value)
  {
    if ImportAll(attrs, es, reg, items).failure.Some? {
      var k := FailurePoint(attrs, es, reg, items);
    }
  }

  /** Storing the value an attribute already has changes nothing. */
  lemma {:induction false} SetAttrSame(attrs: Attrs, name: string, v: Value)
    requires Lookup(attrs, name) == Some(v)
    ensures SetAttr(attrs, name, v) == attrs
  {
    if attrs[0].0 != name {
      SetAttrSame(attrs[1..], name, v);
    }
  }

  /** With distinct names, looking an attribute up by its name finds its value. */
  lemma LookupMember(attrs: Attrs, x: (string, Value))
    requires DistinctNames(attrs) && x in attrs
    ensures Lookup(attrs, x.0) == Some(x.1)
  {
    var i :| 0 <= i < |attrs| && attrs[i] == x;
    LookupAt(attrs, x.0, i);
  }

  /** The attribute values whose export `import_config` can read back into the same attribute. */
  predicate Exportable(v: Value, reg: set<Kind>)
  {
    Registered(v, reg)
    || IsPrimitive(v)
    || (v.VList? && !(|v.items| > 0 && Registered(v.items[0], reg)))
    || (v.VList? && |v.items| > 0 && Registered(v.items[0], reg)
        && forall i :: 0 <= i < |v.items| ==> v.items[i].VParam? && KindOf(v.items[i].p) == KindOf(v.items[0].p))
  }

  /** One attribute: importing its exported value gives the value back. */
  lemma FieldRoundTrip(attrs: Attrs, name: string, v: Value, reg: set<Kind>, items: ItemCodec, show: Value -> string)
    requires Conforms(items)
    requires Lookup(attrs, name) == Some(v) && Exportable(v, reg)
    ensures ExportValue(v, reg, items, show).Ok?
    ensures ImportField(attrs, name, ExportValue(v, reg, items, show).value, reg, items) == Ok(v)
  {
    var w := ExportValue(v, reg, items, show).value;
    if Registered(v, reg) {
      ToJsonTagged(v.p, items);
      JsonRoundTrip(v.p, items);
      TypeMapIsTag(VStr(Tag(KindOf(v.p))), KindOf(v.p));
    } else if v.VList? && |v.items| > 0 && Registered(v.items[0], reg) {
      var k := KindOf(v.items[0].p);
      forall i | 0 <= i < |w.items|
        ensures DecodeElement(k, w.items[i], items) == Ok(v.items[i].p)
      {
        ToJsonTagged(v.items[i].p, items);
        JsonRoundTrip(v.items[i].p, items);
      }
      var r := ImportField(attrs, name, w, reg, items);
      assert r.Ok? && |r.value.items| == |v.items|;
      assert r.value.items == v.items;
    }
  }

  /** Importing entries that each store the value already held changes nothing and raises nothing. */
  lemma {:induction false} ImportAllFixpoint(attrs: Attrs, es: seq<(string, Value)>, reg: set<Kind>, items: ItemCodec)
    requires forall i :: 0 <= i < |es| ==>
               Lookup(attrs, es[i].0).Some? && ImportField(attrs, es[i].0, es[i].1, reg, items) == Ok(Lookup(attrs, es[i].0).value)
    ensures ImportAll(attrs, es, reg, items) == Imported(attrs, None)
  {
    if |es| > 0 {
      SetAttrSame(attrs, es[0].0, Lookup(attrs, es[0].0).value);
      assert forall i :: 0 <= i < |es| - 1 ==> es[1..][i] == es[i + 1];
      ImportAllFixpoint(attrs, es[1..], reg, items);
    }
  }

  /**
   * Importing the export of a configuration object into that object raises
   * nothing and leaves every attribute as it was, when every exported value
   * is of a kind `import_config` reads back.
   */
  lemma ExportImportRoundTrip(attrs: Attrs, reg: set<Kind>, items: ItemCodec, show: Value -> string)
    requires Conforms(items)
    requires DistinctNames(attrs)
    requires forall i :: 0 <= i < |attrs| && !Skipped(attrs[i].0, attrs[i].1) ==> Exportable(attrs[i].1, reg)
    ensures ExportConfig(attrs, reg, items, show).Ok?
    ensures ImportConfig(attrs, ExportConfig(attrs, reg, items, show).value, reg, items) == Imported(attrs, None)
  {
    var kept := Kept(attrs);
    forall i | 0 <= i < |kept|
      ensures Lookup(attrs, kept[i].0) == Some(kept[i].1)
      ensures ExportValue(kept[i].1, reg, items, show).Ok?
      ensures ImportField(attrs, kept[i].0, ExportValue(kept[i].1, reg, items, show).value, reg, items) == Ok(kept[i].1)
    {
      assert kept[i] in kept;
      LookupMember(attrs, kept[i]);
      FieldRoundTrip(attrs, kept[i].0, kept[i].1, reg, items, show);
    }
    ExportSucceeds(attrs, v => ExportValue(v, reg, items, show));
    ExportEntries(attrs, v => ExportValue(v, reg, items, show));
    var es := ExportAll(attrs, reg, items, show).value;
    ImportAllFixpoint(attrs, es, reg, items);
  }
}
