/**
 * The few Python builtins the configuration core leans on, over `Values.Value`:
 * `len`, integer subscripting, iteration, dictionary access, `float()`,
 * equality between numbers, and the string methods `lower`, `strip`,
 * `startswith` and `in`.
 */
module Py {
  import opened Values

  // ---------------------------------------------------------------- dictionaries

  /** The value of the first entry with key `k`. */
  function Lookup(es: seq<(string, Value)>, k: string): (r: Option<Value>)
    ensures r.Some? <==> exists i :: 0 <= i < |es| && es[i].0 == k
  {
    if |es| == 0 then None
    else if es[0].0 == k then Some(es[0].1)
    else Lookup(es[1..], k)
  }

  /** The first entry with key `k` decides the lookup. */
  lemma {:induction false} LookupAt(es: seq<(string, Value)>, k: string, i: nat)
    requires i < |es| && es[i].0 == k
    requires forall j :: 0 <= j < i ==> es[j].0 != k
    ensures Lookup(es, k) == Some(es[i].1)
  {
    if i > 0 {
      LookupAt(es[1..], k, i - 1);
    }
  }

  /** `d.get(k)`: only dictionaries have a `get` method. */
  function DictGet(d: Value, k: string): Result<Option<Value>>
  {
    if d.VDict? then Ok(Lookup(d.entries, k)) else Err(NoAttribute)
  }

  /** `d[k]` with a string key. */
  function Subscript(d: Value, k: string): Result<Value>
  {
    if d.VDict? then
      match Lookup(d.entries, k)
      case Some(v) => Ok(v)
      case None => Err(MissingKey(VStr(k)))
    else Err(WrongType)
  }

  /**
   * What every `from_json` does first: compare `data.get("type")` with the
   * class's tag, raising `ValueError` on a mismatch, and only then read
   * `data["value"]`.
   */
  function TaggedValue(data: Value, tag: string): (r: Result<Value>)
    ensures data.VDict? && Lookup(data.entries, "type") != Some(VStr(tag)) ==> r == Err(TagMismatch(tag))
    ensures data.VDict? && Lookup(data.entries, "type") == Some(VStr(tag)) ==>
              (r.Ok? <==> Lookup(data.entries, "value").Some?)
    ensures r.Ok? ==> data.VDict? && Lookup(data.entries, "value") == Some(r.value)
  {
    var t :- DictGet(data, "type");
    if t != Some(VStr(tag)) then Err(TagMismatch(tag)) else Subscript(data, "value")
  }

  /** The keys of a dictionary, in order. */
  function Keys(es: seq<(string, Value)>): (r: seq<Value>)
    ensures |r| == |es|
    ensures forall i :: 0 <= i < |es| ==> r[i] == VStr(es[i].0)
  {
    seq(|es|, i requires 0 <= i < |es| => VStr(es[i].0))
  }

  // ---------------------------------------------------------------- sequences

  /** The three channels of a colour, which is how `RGBParam` iterates and indexes. */
  function Channels(c: Rgb): seq<Value>
  {
    [VInt(c.r), VInt(c.g), VInt(c.b)]
  }

  /** The one-character strings of `s`, which is how Python iterates a string. */
  function Chars(s: string): (r: seq<Value>)
    ensures |r| == |s|
    ensures forall i :: 0 <= i < |s| ==> r[i] == VStr([s[i]])
  {
    seq(|s|, i requires 0 <= i < |s| => VStr([s[i]]))
  }

  /** `len(v)`. `RGBParam` defines `__len__`; the other parameter classes do not. */
  function Len(v: Value): Result<nat>
  {
    match v
    case VStr(s) => Ok(|s|)
    case VList(xs) => Ok(|xs|)
    case VTuple(xs) => Ok(|xs|)
    case VDict(es) => Ok(|es|)
    case VParam(RgbP(_)) => Ok(3)
    case _ => Err(WrongType)
  }

  /** `v[i]` for a non-negative integer `i`; a dictionary's keys are strings, so it has no key `i`. */
  function Index(v: Value, i: nat): (r: Result<Value>)
    ensures r.Ok? ==> !v.VDict? && Len(v).Ok? && i < Len(v).value
    ensures !v.VDict? && Len(v).Ok? && i < Len(v).value ==> r.Ok?
    ensures (v.VList? || v.VTuple?) && i < |v.items| ==> r == Ok(v.items[i])
  {
    match v
    case VStr(s) => if i < |s| then Ok(VStr([s[i]])) else Err(OutOfBounds)
    case VList(xs) => if i < |xs| then Ok(xs[i]) else Err(OutOfBounds)
    case VTuple(xs) => if i < |xs| then Ok(xs[i]) else Err(OutOfBounds)
    case VDict(_) => Err(MissingKey(VInt(i)))
    case VParam(RgbP(c)) => if i < 3 then Ok(Channels(c)[i]) else Err(OutOfBounds)
    case _ => Err(WrongType)
  }

  /** The elements `for x in v` visits. */
  function Iter(v: Value): (r: Result<seq<Value>>)
    ensures r.Ok? <==> Len(v).Ok?
    ensures r.Ok? ==> |r.value| == Len(v).value
    ensures r.Ok? && !v.VDict? ==> forall i :: 0 <= i < |r.value| ==> Index(v, i) == Ok(r.value[i])
  {
    match v
    case VStr(s) => Ok(Chars(s))
    case VList(xs) => Ok(xs)
    case VTuple(xs) => Ok(xs)
    case VDict(es) => Ok(Keys(es))
    case VParam(RgbP(c)) => Ok(Channels(c))
    case _ => Err(WrongType)
  }

  /**
   * `[f(x) for x in xs]` where `f` may raise: the elements are converted left
   * to right and the first failure is the one raised.
   */
  function MapAll<T>(xs: seq<Value>, f: Value -> Result<T>): (r: Result<seq<T>>)
    ensures r.Ok? <==> forall i :: 0 <= i < |xs| ==> f(xs[i]).Ok?
    ensures r.Ok? ==> |r.value| == |xs| && forall i :: 0 <= i < |xs| ==> r.value[i] == f(xs[i]).value
    ensures r.Err? ==> exists k :: 0 <= k < |xs| && f(xs[k]) == Err(r.error)
                                   && forall j :: 0 <= j < k ==> f(xs[j]).Ok?
  {
    if |xs| == 0 then Ok([])
    else
      match f(xs[0])
      case Err(e) => Err(e)
      case Ok(y) =>
        match MapAll(xs[1..], f)
        case Err(e) =>
          assert forall k :: 0 <= k < |xs| - 1 ==> xs[1..][k] == xs[k + 1];
          Err(e)
        case Ok(ys) => Ok([y] + ys)
  }

  // ---------------------------------------------------------------- numbers

  /** The numeric value of a bool, int or float (bool is a subclass of int). */
  function AsNumber(v: Value): Option<real>
  {
    match v
    case VBool(b) => Some(if b then 1.0 else 0.0)
    case VInt(i) => Some(i as real)
    case VFloat(f) => Some(f)
    case _ => None
  }

  /** `float(v)`; strings are never parsed (see README, Left out). */
  function ToFloat(v: Value): (r: Result<real>)
    ensures AsNumber(v).Some? ==> r == Ok(AsNumber(v).value)
    ensures AsNumber(v).None? ==> r.Err?
  {
    match AsNumber(v)
    case Some(x) => Ok(x)
    case None => if v.VStr? then Err(NotANumber) else Err(WrongType)
  }

  /** Python's `==` between two values: numbers compare by value across bool, int and float. */
  predicate PyEq(a: Value, b: Value)
  {
    if AsNumber(a).Some? && AsNumber(b).Some? then AsNumber(a) == AsNumber(b) else a == b
  }

  /**
   * Whether `v` can be a dictionary key: lists and dictionaries cannot, and
   * neither can an `RGBParam`, which defines `__eq__` without `__hash__`.
   */
  predicate Hashable(v: Value)
  {
    match v
    case VList(_) => false
    case VDict(_) => false
    case VParam(RgbP(_)) => false
    case VTuple(xs) => forall i :: 0 <= i < |xs| ==> Hashable(xs[i])
    case _ => true
  }

  // ---------------------------------------------------------------- strings

  /** `str.lower()` on one character; only ASCII letters are folded (see README). */
  function LowerChar(c: char): char
  {
    if 'A' <= c <= 'Z' then (c as int + 32) as char else c
  }

  function Lower(s: string): (r: string)
    ensures |r| == |s|
    ensures forall i :: 0 <= i < |s| ==> r[i] == LowerChar(s[i])
  {
    seq(|s|, i requires 0 <= i < |s| => LowerChar(s[i]))
  }

  /** The characters `str.strip()` removes: those for which `str.isspace()` holds. */
  predicate IsSpace(c: char)
  {
    var n := c as int;
    (9 <= n <= 13) || (28 <= n <= 32) || n == 0x85 || n == 0xA0 || n == 0x1680
    || (0x2000 <= n <= 0x200A) || n == 0x2028 || n == 0x2029 || n == 0x202F
    || n == 0x205F || n == 0x3000
  }

  function TrimLeft(s: string): (r: string)
    ensures |r| <= |s|
    ensures r == s[|s| - |r|..]
    ensures forall i :: 0 <= i < |s| - |r| ==> IsSpace(s[i])
    ensures |r| > 0 ==> !IsSpace(r[0])
  {
    if |s| > 0 && IsSpace(s[0]) then TrimLeft(s[1..]) else s
  }

  function TrimRight(s: string): (r: string)
    ensures |r| <= |s|
    ensures r == s[..|r|]
    ensures forall i :: |r| <= i < |s| ==> IsSpace(s[i])
    ensures |r| > 0 ==> !IsSpace(r[|r| - 1])
  {
    if |s| > 0 && IsSpace(s[|s| - 1]) then TrimRight(s[..|s| - 1]) else s
  }

  /** `str.strip()` with no argument. */
  function Strip(s: string): string
  {
    TrimRight(TrimLeft(s))
  }

  /** `s.startswith(p)`. */
  predicate StartsWith(s: string, p: string)
  {
    |p| <= |s| && s[..|p|] == p
  }

  /** `p in s` for strings: `p` occurs in `s` as a contiguous substring. */
  predicate Contains(s: string, p: string)
  {
    StartsWith(s, p) || (|s| > 0 && Contains(s[1..], p))
  }

  /** `str.strip()` yields the empty string exactly when every character is whitespace. */
  lemma StripEmpty(s: string)
    ensures Strip(s) == "" <==> forall i :: 0 <= i < |s| ==> IsSpace(s[i])
  {
    var l := TrimLeft(s);
    if Strip(s) == "" {
      // a non-empty TrimLeft starts with a non-space, which TrimRight would keep
      assert |l| == 0;
    } else {
      var r := Strip(s);
      assert r == l[..|r|];
      assert !IsSpace(r[0]);
      assert s[|s| - |l|] == r[0];
    }
  }
}
