/**
 * `ItemLookup` (core/item_db.py): the in-memory item tables built from the
 * item records, and lookups by id, by name and by either.
 */
module ItemDb {
  import opened Values
  import opened Py

  /** The `Item` dataclass, without its icon. */
  datatype Item = Item(id: int, name: string,
                       tradeableOnGe: bool, members: bool, noted: bool, noteable: bool,
                       placeholder: bool, stackable: bool, equipable: bool,
                       cost: int, lowalch: int, highalch: int)

  /** One entry of the item data file: the item and its two link fields. */
  datatype Record = Record(item: Item, linkedItem: Option<int>, linkedPlaceholder: Option<int>)

  /**
   * The two tables: items by id, in the order the ids were first inserted (a
   * Python dictionary keeps that order when a key is overwritten), and items
   * by lower-cased name.
   */
  datatype Table = Table(byId: seq<Item>, byName: map<string, Item>)

  const Empty: Table := Table([], map[])

  /** The ids present in a list of items. */
  function IdsOf(s: seq<Item>): set<int>
  {
    set x | x in s :: x.id
  }

  predicate DistinctIds(s: seq<Item>)
  {
    forall i, j :: 0 <= i < j < |s| ==> s[i].id != s[j].id
  }

  /** The table invariant: ids are keys, and every name key is its item's lower-cased name. */
  predicate Valid(t: Table)
  {
    DistinctIds(t.byId) && forall k :: k in t.byName ==> Lower(t.byName[k].name) == k
  }

  /** `_items_by_id[item.id] = item`: overwrite in place, or append a new key. */
  function PutById(s: seq<Item>, item: Item): (r: seq<Item>)
    ensures IdsOf(r) == IdsOf(s) + {item.id}
    ensures forall y :: y in r ==> y == item || y in s
    ensures item.id !in IdsOf(s) ==> r == s + [item]
  {
    if |s| == 0 then [item]
    else if s[0].id == item.id then [item] + s[1..]
    else
      var rest := PutById(s[1..], item);
      IdsCons(s);
      IdsCons([s[0]] + rest);
      assert ([s[0]] + rest)[1..] == rest;
      [s[0]] + rest
  }

  lemma IdsCons(s: seq<Item>)
    requires |s| > 0
    ensures IdsOf(s) == {s[0].id} + IdsOf(s[1..])
  {
    assert forall y :: y in s <==> y == s[0] || y in s[1..];
  }

  /** In a list with distinct ids the head's id does not occur in the tail. */
  lemma DistinctHead(s: seq<Item>)
    requires |s| > 0 && DistinctIds(s)
    ensures s[0].id !in IdsOf(s[1..])
  {
    forall y | y in s[1..] ensures y.id != s[0].id {
      var j :| 0 <= j < |s[1..]| && s[1..][j] == y;
      assert s[j + 1] == y;
    }
  }

  /** Prepending an item whose id is new keeps ids distinct. */
  lemma DistinctCons(x: Item, s: seq<Item>)
    requires DistinctIds(s) && x.id !in IdsOf(s)
    ensures DistinctIds([x] + s)
  {
    var r := [x] + s;
    forall i, j | 0 <= i < j < |r| ensures r[i].id != r[j].id {
      assert r[j] == s[j - 1];
      if i > 0 { assert r[i] == s[i - 1]; }
    }
  }

  /** Storing under an id keeps ids distinct, keeps every other item and holds the new one. */
  lemma {:induction false} PutByIdKeeps(s: seq<Item>, item: Item)
    ensures DistinctIds(s) ==> DistinctIds(PutById(s, item))
    ensures item in PutById(s, item)
    ensures forall y :: y in s && y.id != item.id ==> y in PutById(s, item)
  {
    if |s| > 0 {
      var r := PutById(s, item);
      if s[0].id != item.id {
        PutByIdKeeps(s[1..], item);
        if DistinctIds(s) {
          DistinctHead(s);
          DistinctCons(s[0], PutById(s[1..], item));
        }
      } else if DistinctIds(s) {
        DistinctHead(s);
        DistinctCons(item, s[1..]);
      }
      forall y | y in s && y.id != item.id ensures y in r {
        if y != s[0] { assert y in s[1..]; }
      }
    }
  }

  /** Storing an item under its id and its lower-cased name. */
  function Put(t: Table, item: Item): (r: Table)
    ensures r.byName == t.byName[Lower(item.name) := item]
    ensures r.byId == PutById(t.byId, item)
    ensures Valid(t) ==> Valid(r)
  {
    PutByIdKeeps(t.byId, item);
    Table(PutById(t.byId, item), t.byName[Lower(item.name) := item])
  }

  /** A canonical record: not a linked copy, and with a placeholder. */
  predicate Canonical(r: Record)
  {
    r.linkedItem.None? && r.linkedPlaceholder.Some?
  }

  /**
   * The acceptance rule of `_load_data`: a canonical record is always stored,
   * any other only when its id is not present yet.
   */
  function Accept(t: Table, rec: Record): (r: Table)
    ensures Canonical(rec) || rec.item.id !in IdsOf(t.byId) ==> r == Put(t, rec.item)
    ensures !Canonical(rec) && rec.item.id in IdsOf(t.byId) ==> r == t
  {
    if Canonical(rec) || rec.item.id !in IdsOf(t.byId) then Put(t, rec.item) else t
  }

  /** `_load_data` over the records in file order. */
  function LoadFrom(t: Table, records: seq<Record>): (r: Table)
    ensures Valid(t) ==> Valid(r)
    ensures IdsOf(r.byId) == IdsOf(t.byId) + set rec | rec in records :: rec.item.id
    decreases |records|
  {
    if |records| == 0 then t
    else
      var next := Accept(t, records[0]);
      var r := LoadFrom(next, records[1..]);
      assert (set rec | rec in records :: rec.item.id)
             == {records[0].item.id} + set rec | rec in records[1..] :: rec.item.id by {
        assert forall rec :: rec in records <==> rec == records[0] || rec in records[1..];
      }
      r
  }

  function LoadData(records: seq<Record>): (t: Table)
    ensures Valid(t)
    ensures IdsOf(t.byId) == set rec | rec in records :: rec.item.id
  {
    LoadFrom(Empty, records)
  }

  // ---------------------------------------------------------------- lookups

  /** `get_item_by_id`. */
  function GetItemById(t: Table, id: int): (r: Option<Item>)
    ensures r.Some? <==> id in IdsOf(t.byId)
    ensures r.Some? ==> r.value.id == id && r.value in t.byId
  {
    FindId(t.byId, id)
  }

  function FindId(s: seq<Item>, id: int): (r: Option<Item>)
    ensures r.Some? <==> id in IdsOf(s)
    ensures r.Some? ==> r.value.id == id && r.value in s
  {
    if |s| == 0 then None
    else if s[0].id == id then Some(s[0])
    else
      var r := FindId(s[1..], id);
      assert id in IdsOf(s) <==> id in IdsOf(s[1..]) by {
        assert forall y :: y in s <==> y == s[0] || y in s[1..];
      }
      r
  }

  /** `get_item_by_name`: the name is lower-cased before the lookup. */
  function GetItemByName(t: Table, name: string): (r: Option<Item>)
    ensures r.Some? <==> Lower(name) in t.byName
    ensures Valid(t) && r.Some? ==> Lower(r.value.name) == Lower(name)
  {
    if Lower(name) in t.byName then Some(t.byName[Lower(name)]) else None
  }

  /**
   * `get_item`: an int (a bool is one, `True` being 1) is an id, a string a
   * name; anything else finds nothing.
   */
  function GetItem(t: Table, v: Value): (r: Option<Item>)
    ensures v.VInt? ==> r == GetItemById(t, v.i)
    ensures v.VBool? ==> r == GetItemById(t, if v.b then 1 else 0)
    ensures v.VStr? ==> r == GetItemByName(t, v.s)
    ensures !v.VInt? && !v.VBool? && !v.VStr? ==> r == None
  {
    match v
    case VInt(i) => GetItemById(t, i)
    case VBool(b) => GetItemById(t, if b then 1 else 0)
    case VStr(s) => GetItemByName(t, s)
    case _ => None
  }

  // ---------------------------------------------------------------- properties

  /** In a valid table the id lookup finds the one item stored under that id. */
  lemma {:induction false} FindUnique(s: seq<Item>, x: Item)
    requires DistinctIds(s) && x in s
    ensures FindId(s, x.id) == Some(x)
  {
    if s[0] != x {
      assert x in s[1..];
      assert s[0].id != x.id by {
        var j :| 0 <= j < |s| && s[j] == x;
      }
      FindUnique(s[1..], x);
    }
  }

  /** An accepted record is what both lookups return right after it is stored. */
  lemma AcceptedIsFound(t: Table, rec: Record)
    requires Valid(t)
    requires Canonical(rec) || rec.item.id !in IdsOf(t.byId)
    ensures GetItemById(Accept(t, rec), rec.item.id) == Some(rec.item)
    ensures GetItemByName(Accept(t, rec), rec.item.name) == Some(rec.item)
  {
    PutByIdKeeps(t.byId, rec.item);
    FindUnique(Accept(t, rec).byId, rec.item);
  }

  /** A record that is not canonical never replaces an item already stored under its id. */
  lemma DuplicateIgnored(t: Table, rec: Record)
    requires !Canonical(rec) && rec.item.id in IdsOf(t.byId)
    ensures Accept(t, rec) == t
    ensures GetItemById(Accept(t, rec), rec.item.id) == GetItemById(t, rec.item.id)
  {
  }

  /** Loading a list of records is loading its prefix, then the rest. */
  lemma {:induction false} LoadFromSplit(t: Table, records: seq<Record>, i: nat)
    requires i <= |records|
    ensures LoadFrom(t, records) == LoadFrom(LoadFrom(t, records[..i]), records[i..])
    decreases i
  {
    if i > 0 {
      assert records[..i][0] == records[0];
      assert records[..i][1..] == records[1..][..i - 1];
      assert records[i..] == records[1..][i - 1..];
      LoadFromSplit(Accept(t, records[0]), records[1..], i - 1);
    } else {
      assert records[..i] == [] && records[i..] == records;
    }
  }

  /** An item stays stored while no later record with its id is canonical. */
  lemma {:induction false} LoadFromKeeps(t: Table, records: seq<Record>, x: Item)
    requires x in t.byId
    requires forall j :: 0 <= j < |records| && records[j].item.id == x.id ==> !Canonical(records[j])
    ensures x in LoadFrom(t, records).byId
    decreases |records|
  {
    if |records| > 0 {
      assert x.id in IdsOf(t.byId);
      PutByIdKeeps(t.byId, records[0].item);
      LoadFromKeeps(Accept(t, records[0]), records[1..], x);
    }
  }

  /** The last record for an id, when it is canonical, is the one the id finds after loading. */
  lemma LastCanonicalWins(records: seq<Record>, i: nat)
    requires i < |records| && Canonical(records[i])
    requires forall j :: i < j < |records| ==> records[j].item.id != records[i].item.id
    ensures GetItemById(LoadData(records), records[i].item.id) == Some(records[i].item)
  {
    var x := records[i].item;
    var before := LoadFrom(Empty, records[..i]);
    LoadFromSplit(Empty, records, i);
    assert records[i..][1..] == records[i + 1..];
    PutByIdKeeps(before.byId, x);
    LoadFromKeeps(Accept(before, records[i]), records[i + 1..], x);
    FindUnique(LoadData(records).byId, x);
  }

  /**
   * When no record for an id is canonical, the first of them is the one the
   * id finds after loading: later copies never overwrite it.
   */
  lemma FirstCopyWins(records: seq<Record>, i: nat)
    requires i < |records|
    requires forall j :: 0 <= j < i ==> records[j].item.id != records[i].item.id
    requires forall j :: 0 <= j < |records| && records[j].item.id == records[i].item.id ==> !Canonical(records[j])
    ensures GetItemById(LoadData(records), records[i].item.id) == Some(records[i].item)
  {
    var x := records[i].item;
    var before := LoadFrom(Empty, records[..i]);
    LoadFromSplit(Empty, records, i);
    assert x.id !in IdsOf(before.byId) by {
      assert forall rec :: rec in records[..i] ==> rec.item.id != x.id;
    }
    assert records[i..][1..] == records[i + 1..];
    PutByIdKeeps(before.byId, x);
    var rest := records[i + 1..];
    forall j | 0 <= j < |rest| && rest[j].item.id == x.id ensures !Canonical(rest[j]) {
      assert rest[j] == records[i + 1 + j];
    }
    LoadFromKeeps(Accept(before, records[i]), records[i + 1..], x);
    FindUnique(LoadData(records).byId, x);
  }

  /** Name lookup ignores letter case. */
  lemma NameCaseInsensitive(t: Table, a: string, b: string)
    requires Lower(a) == Lower(b)
    ensures GetItemByName(t, a) == GetItemByName(t, b)
  {
  }
}
