/** The browser globals every editor shares: `window.portfolioData`, the one mutable document,
    and `localStorage`. Also the writes several components make into the document in the same way. */
module Document {
  import opened Wrappers
  import opened Json

  /** The `localStorage` key the edit-mode provider saves the document under. */
  const StorageKey := "portfolio-data"

  /** The document after `d[k] = v`: unchanged when the assignment does not take effect. */
  function AfterSet(d: Option<Json>, k: string, v: Json): (r: Option<Json>)
    ensures SetKey(d, k, v).Success? ==> r == Some(SetKey(d, k, v).value)
    ensures SetKey(d, k, v).Failure? ==> r == d
  {
    match SetKey(d, k, v)
    case Success(x) => Some(x)
    case Failure(_) => d
  }

  /** `d[key][i] = v` after `if (!d[key]) d[key] = []`: the document `d` must be an object, and the
      value under `key`, unless it is absent or falsy and replaced by a new array, must be an
      array or an object. */
  function PutIndexed(d: Json, key: string, i: nat, v: Json): Result<Json, WriteError> {
    match d
    case Obj(fs) =>
      var list := if Truthy(Prop(Some(d), key)) then fs[key] else Arr([]);
      var list' :- PutElement(list, i, v);
      Success(Obj(fs[key := list']))
    case Arr(_) => Failure(Unsupported)
    case _ => Failure(TypeError)
  }

  /** What an indexed store does: element `i` under `key` becomes `v`; every other element under
      `key` is what it was (or absent, when the list was created); every other key is untouched.
      It fails exactly when `d` is not an object or `key` holds a truthy primitive. */
  lemma PutIndexedEffect(d: Json, key: string, i: nat, v: Json)
    ensures PutIndexed(d, key, i, v).Success? <==>
              d.Obj? && (!Truthy(Prop(Some(d), key)) || d.fields[key].Arr? || d.fields[key].Obj?)
    ensures PutIndexed(d, key, i, v).Success? ==>
              var r := PutIndexed(d, key, i, v).value;
              && r.Obj? && r.fields.Keys == d.fields.Keys + {key}
              && Element(r.fields[key], i) == Some(v)
              && (forall j :: j != i ==>
                    Element(r.fields[key], j) == if Truthy(Prop(Some(d), key)) then Element(d.fields[key], j) else None)
              && (forall k :: k != key ==> Prop(Some(r), k) == Prop(Some(d), k))
  {
  }

  class Window {
    /** `window.portfolioData`; `None` while it is `undefined`. */
    var portfolioData: Option<Json>
    /** `localStorage`: each slot is modelled by what `JSON.parse` makes of its text, `None` when
        the text does not parse (or is empty). */
    var storage: map<string, Option<Json>>

    constructor ()
      ensures portfolioData == None && storage == map[]
    {
      portfolioData := None;
      storage := map[];
    }

    /** `if (!window.portfolioData) window.portfolioData = {}`. */
    method EnsureDocument()
      modifies this
      ensures portfolioData == Some(OrEmpty(old(portfolioData)))
      ensures storage == old(storage)
    {
      if !Truthy(portfolioData) {
        portfolioData := Some(Obj(map[]));
      }
    }

    /** `window.portfolioData[key] = value`, which throws unless the document is an object. */
    method AssignKey(key: string, value: Json) returns (ok: bool)
      modifies this
      ensures ok == SetKey(old(portfolioData), key, value).Success?
      ensures portfolioData == AfterSet(old(portfolioData), key, value)
      ensures storage == old(storage)
    {
      match portfolioData
      case Some(Obj(fs)) =>
        portfolioData := Some(Obj(fs[key := value]));
        ok := true;
      case _ =>
        ok := false;
    }
  }

  /** The list a section holds after its mount effect: the document's array under `key` when
      there is one, and otherwise the section's own list. */
  function Adopted(pd: Option<Json>, key: string, list: seq<Option<Json>>): seq<Option<Json>> {
    var cur := Prop(Some(OrEmpty(pd)), key);
    if Truthy(cur) && cur.value.Arr? then cur.value.elems else list
  }

  /** The document after a section's mount effect: created when missing, and seeded with the
      section's list when it has nothing truthy under `key`. */
  function Seeded(pd: Option<Json>, key: string, list: seq<Option<Json>>): Option<Json> {
    var d := OrEmpty(pd);
    if Truthy(Prop(Some(d), key)) then Some(d) else AfterSet(Some(d), key, Arr(list))
  }

  /** The mount effect completes: the value under `key` is an array to adopt, or nothing truthy
      is there and the document is an object the list can be stored in. */
  predicate SeedOk(pd: Option<Json>, key: string) {
    var d := OrEmpty(pd);
    var cur := Prop(Some(d), key);
    if Truthy(cur) then cur.value.Arr? else d.Obj?
  }

  /** The document holds exactly `list` under `key`. */
  predicate Mirrors(pd: Option<Json>, key: string, list: seq<Option<Json>>) {
    Prop(pd, key) == Some(Arr(list))
  }

  /** After a completed mount effect the document and the section hold the same list, and no
      other key of the document has changed. */
  lemma SeedSynchronises(pd: Option<Json>, key: string, list: seq<Option<Json>>)
    requires SeedOk(pd, key)
    ensures Mirrors(Seeded(pd, key, list), key, Adopted(pd, key, list))
    ensures forall k :: k != key ==> Prop(Seeded(pd, key, list), k) == Prop(Some(OrEmpty(pd)), k)
  {
  }

  /** A section's mount effect: `if (!pd) pd = {}; if (pd[key]) setList(pd[key]) else pd[key] = list`.
      A truthy value that is not an array cannot serve as the section's list (the section's
      `filter`/`map` would throw on it): the section then keeps its list and `ok` is false. */
  method AdoptOrSeed(win: Window, key: string, list: seq<Option<Json>>) returns (adopted: seq<Option<Json>>, ok: bool)
    modifies win
    ensures win.storage == old(win.storage)
    ensures adopted == Adopted(old(win.portfolioData), key, list)
    ensures win.portfolioData == Seeded(old(win.portfolioData), key, list)
    ensures ok == SeedOk(old(win.portfolioData), key)
  {
    win.EnsureDocument();
    var cur := Prop(win.portfolioData, key);
    if Truthy(cur) {
      adopted := if cur.value.Arr? then cur.value.elems else list;
      ok := cur.value.Arr?;
    } else {
      adopted := list;
      ok := win.AssignKey(key, Arr(list));
    }
  }

  /** `if (!pd) pd = {}; if (!pd[key]) pd[key] = []; pd[key][index] = value`, as the skill editor
      and the project card write their entry. */
  method StoreIndexed(win: Window, key: string, index: nat, value: Json) returns (ok: bool)
    modifies win
    ensures win.storage == old(win.storage)
    ensures var d := OrEmpty(old(win.portfolioData));
            var r := PutIndexed(d, key, index, value);
            ok == r.Success? && win.portfolioData == Some(if ok then r.value else d)
  {
    win.EnsureDocument();
    ghost var d := win.portfolioData.value;
    if !Truthy(Prop(win.portfolioData, key)) {
      ok := win.AssignKey(key, Arr([]));
      if !ok {
        return;
      }
    }
    var doc := win.portfolioData.value;
    var list := doc.fields[key];
    var list' := PutElement(list, index, value);
    if list'.Failure? {
      ok := false;
      return;
    }
    win.portfolioData := Some(Obj(doc.fields[key := list'.value]));
    ok := true;
    assert doc.fields[key := list'.value] == d.fields[key := list'.value];
  }
}
