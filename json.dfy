/** The untyped portfolio document: a JavaScript value built from strings, numbers, booleans,
    null, objects and arrays, with JavaScript's truthiness, property reads and assignments,
    array-element assignment (which leaves holes), the deep copy `JSON.parse(JSON.stringify(x))`
    and `String(x)`. */
module Json {
  import opened Wrappers
  import opened Text

  /** A JavaScript value reachable from `window.portfolioData`. An array element is optional:
      `None` is a hole (or an `undefined` element). Numbers are integers. */
  datatype Json =
    | Str(s: string)
    | Num(n: int)
    | Bool(b: bool)
    | Null
    | Obj(fields: map<string, Json>)
    | Arr(elems: seq<Option<Json>>)

  /** Why an assignment into the document does not take effect. */
  datatype WriteError =
    | TypeError    // a property of undefined, null or a primitive is assigned: strict-mode code throws
    | Unsupported  // a named property of an array is assigned: JavaScript allows it, this model does not represent it

  /** JavaScript truthiness of a possibly `undefined` value. */
  predicate Truthy(v: Option<Json>) {
    match v
    case None => false
    case Some(Str(s)) => s != ""
    case Some(Num(n)) => n != 0
    case Some(Bool(b)) => b
    case Some(Null) => false
    case Some(Obj(_)) => true
    case Some(Arr(_)) => true
  }

  /** `v || {}`. */
  function OrEmpty(v: Option<Json>): (d: Json)
    ensures Truthy(Some(d))
  {
    if Truthy(v) then v.value else Obj(map[])
  }

  /** `v[k]` for a value that can be read: an object's own key. Arrays and primitives have no
      properties here, and keys inherited from `Object.prototype` (`constructor`, `toString`,
      `__proto__`, ...) read as missing. */
  function Prop(v: Option<Json>, k: string): Option<Json> {
    if v.Some? && v.value.Obj? && k in v.value.fields then Some(v.value.fields[k]) else None
  }

  /** `target[k] = v`. */
  function SetKey(target: Option<Json>, k: string, v: Json): (r: Result<Json, WriteError>)
    ensures r.Success? <==> target.Some? && target.value.Obj?
    ensures r.Success? ==> r.value.Obj? && r.value.fields.Keys == target.value.fields.Keys + {k}
    ensures r.Success? ==> Prop(Some(r.value), k) == Some(v)
    ensures r.Success? ==> forall j :: j != k ==> Prop(Some(r.value), j) == Prop(target, j)
    ensures r.Failure? ==> r.error == (if target.Some? && target.value.Arr? then Unsupported else TypeError)
  {
    match target
    case Some(Obj(fs)) => Success(Obj(fs[k := v]))
    case Some(Arr(_)) => Failure(Unsupported)
    case _ => Failure(TypeError)
  }

  /** `arr[i] = v` on a JavaScript array: it grows to `i + 1` elements when `i` is past the end,
      and the positions it skips are holes. */
  function StoreAt(es: seq<Option<Json>>, i: nat, v: Json): (r: seq<Option<Json>>)
    ensures |r| == if i < |es| then |es| else i + 1
    ensures r[i] == Some(v)
    ensures forall k :: 0 <= k < |r| && k != i ==> r[k] == (if k < |es| then es[k] else None)
  {
    if i < |es| then es[i := Some(v)] else es + seq(i - |es|, _ => None) + [Some(v)]
  }

  /** Storing twice at the same index: the second value wins. */
  lemma StoreAtTwice(es: seq<Option<Json>>, i: nat, a: Json, b: Json)
    ensures StoreAt(StoreAt(es, i, a), i, b) == StoreAt(es, i, b)
  {
    var x, y := StoreAt(StoreAt(es, i, a), i, b), StoreAt(es, i, b);
    assert |x| == |y|;
    forall k | 0 <= k < |x| ensures x[k] == y[k] {}
  }

  /** `c[i]` for a container: an array element, or the object property named by `String(i)`. */
  function Element(c: Json, i: nat): Option<Json> {
    match c
    case Arr(es) => if i < |es| then es[i] else None
    case Obj(_) => Prop(Some(c), NatToString(i))
    case _ => None
  }

  /** `c[i] = v`: `c` must be an array or an object. */
  function PutElement(c: Json, i: nat, v: Json): (r: Result<Json, WriteError>)
    ensures r.Success? <==> c.Arr? || c.Obj?
    ensures r.Success? ==> Element(r.value, i) == Some(v) && r.value.Arr? == c.Arr?
    ensures r.Success? ==> forall j :: j != i ==> Element(r.value, j) == Element(c, j)
  {
    match c
    case Arr(es) => Success(Arr(StoreAt(es, i, v)))
    case Obj(fs) =>
      var r := Success(Obj(fs[NatToString(i) := v]));
      assert forall j :: j != i ==> NatToString(j) != NatToString(i) by {
        forall j | j != i ensures NatToString(j) != NatToString(i) { NatToStringInjective(j, i); }
      }
      r
    case _ => Failure(TypeError)
  }

  /** The index-keyed properties of an array's present elements. */
  function IndexKeyed(es: seq<Option<Json>>): (fs: map<string, Json>)
    ensures forall k: nat :: k < |es| ==> Prop(Some(Obj(fs)), NatToString(k)) == es[k]
    ensures fs.Keys <= set k: nat | k < |es| :: NatToString(k)
  {
    if es == [] then map[]
    else
      var n := |es| - 1;
      var m := IndexKeyed(es[..n]);
      var fs := if es[n].Some? then m[NatToString(n) := es[n].value] else m;
      assert forall k: nat :: k < n ==> NatToString(k) != NatToString(n) by {
        forall k: nat | k < n ensures NatToString(k) != NatToString(n) { NatToStringInjective(k, n); }
      }
      assert NatToString(n) !in m;
      fs
  }

  /** The own enumerable properties `{...v}` copies: an object's fields, a string's characters
      and an array's present elements under their index keys, and nothing for other values. */
  function Spread(v: Option<Json>): (fs: map<string, Json>)
    ensures v.Some? && v.value.Obj? ==> fs == v.value.fields
    ensures v.Some? && v.value.Str? ==> forall k: nat :: k < |v.value.s| ==> Prop(Some(Obj(fs)), NatToString(k)) == Some(Str([v.value.s[k]]))
    ensures v.Some? && v.value.Arr? ==> forall k: nat :: k < |v.value.elems| ==> Prop(Some(Obj(fs)), NatToString(k)) == v.value.elems[k]
    ensures (v.None? || v.value.Num? || v.value.Bool? || v.value.Null?) ==> fs == map[]
  {
    match v
    case Some(Obj(fs)) => fs
    case Some(Str(s)) => IndexKeyed(seq(|s|, k requires 0 <= k < |s| => Some(Str([s[k]]))))
    case Some(Arr(es)) => IndexKeyed(es)
    case _ => map[]
  }

  /** A value with no holes (and hence no `undefined`) anywhere inside it. */
  predicate NoHoles(j: Json) {
    match j
    case Obj(fs) => forall k :: k in fs ==> NoHoles(fs[k])
    case Arr(es) => forall k :: 0 <= k < |es| ==> es[k].Some? && NoHoles(es[k].value)
    case _ => true
  }

  /** `JSON.parse(JSON.stringify(j))`: the same tree, with every hole turned into `null`. */
  function Normalize(j: Json): Json {
    match j
    case Obj(fs) => Obj(map k | k in fs :: Normalize(fs[k]))
    case Arr(es) =>
      Arr(seq(|es|, k requires 0 <= k < |es| => if es[k].None? then Some(Null) else Some(Normalize(es[k].value))))
    case _ => j
  }

  /** The deep copy has no holes. */
  lemma {:induction false} NormalizeHasNoHoles(j: Json)
    ensures NoHoles(Normalize(j))
  {
    match j
    case Obj(fs) =>
      forall k | k in fs ensures NoHoles(Normalize(fs[k])) { NormalizeHasNoHoles(fs[k]); }
    case Arr(es) =>
      forall k | 0 <= k < |es| && es[k].Some? ensures NoHoles(Normalize(es[k].value)) {
        NormalizeHasNoHoles(es[k].value);
      }
    case _ =>
  }

  /** A value without holes survives the deep copy unchanged. */
  lemma {:induction false} NormalizeFixesHoleFree(j: Json)
    requires NoHoles(j)
    ensures Normalize(j) == j
  {
    match j
    case Obj(fs) =>
      forall k | k in fs ensures Normalize(fs[k]) == fs[k] { NormalizeFixesHoleFree(fs[k]); }
      assert (map k | k in fs :: Normalize(fs[k])) == fs;
    case Arr(es) =>
      forall k | 0 <= k < |es| ensures Normalize(es[k].value) == es[k].value { NormalizeFixesHoleFree(es[k].value); }
      var es' := seq(|es|, k requires 0 <= k < |es| => if es[k].None? then Some(Null) else Some(Normalize(es[k].value)));
      assert es' == es;
    case _ =>
  }

  /** Copying a copy changes nothing. */
  lemma NormalizeIdempotent(j: Json)
    ensures Normalize(Normalize(j)) == Normalize(j)
  {
    NormalizeHasNoHoles(j);
    NormalizeFixesHoleFree(Normalize(j));
  }

  /** `String(j)`, as a template literal or `doc.text` writes a value. */
  function JsString(j: Json): string
    decreases j, 1
  {
    match j
    case Str(s) => s
    case Num(n) => IntToString(n)
    case Bool(b) => if b then "true" else "false"
    case Null => "null"
    case Obj(_) => "[object Object]"
    case Arr(es) => Join(ElementTexts(es), ",")
  }

  /** The texts `Array.prototype.join` uses for the elements: holes and `null` become "". */
  function ElementTexts(es: seq<Option<Json>>): (ts: seq<string>)
    ensures |ts| == |es|
    decreases Arr(es), 0
  {
    seq(|es|, k requires 0 <= k < |es| =>
      if es[k].None? || es[k].value.Null? then "" else JsString(es[k].value))
  }

  /** `String(v)` where `v` may be `undefined`. */
  function Stringify(v: Option<Json>): string {
    if v.None? then "undefined" else JsString(v.value)
  }

  /** The present elements of an array, in order: what `forEach` and `filter` visit. */
  function Present(es: seq<Option<Json>>): (xs: seq<Json>)
    ensures |xs| <= |es|
  {
    if es == [] then []
    else if es[|es| - 1].None? then Present(es[..|es| - 1])
    else Present(es[..|es| - 1]) + [es[|es| - 1].value]
  }

  /** Every value `forEach` visits is an element of the array. */
  lemma {:induction false} PresentFrom(es: seq<Option<Json>>)
    ensures forall x :: x in Present(es) ==> Some(x) in es
  {
    if es != [] {
      PresentFrom(es[..|es| - 1]);
    }
  }

  /** Every present element is visited: `forEach` skips only the holes. */
  lemma {:induction false} PresentAll(es: seq<Option<Json>>)
    ensures forall k :: 0 <= k < |es| && es[k].Some? ==> es[k].value in Present(es)
  {
    if es != [] {
      var init := es[..|es| - 1];
      PresentAll(init);
      forall k | 0 <= k < |es| && es[k].Some? ensures es[k].value in Present(es) {
        if k < |es| - 1 {
          assert init[k] == es[k];
        }
      }
    }
  }

  /** On an array without holes `forEach` visits every element once, in order. */
  lemma {:induction false} PresentDense(es: seq<Option<Json>>)
    requires forall k :: 0 <= k < |es| ==> es[k].Some?
    ensures |Present(es)| == |es|
    ensures forall k :: 0 <= k < |es| ==> Present(es)[k] == es[k].value
  {
    if es != [] {
      var init := es[..|es| - 1];
      PresentDense(init);
      assert forall k :: 0 <= k < |init| ==> Present(es)[k] == init[k].value;
    }
  }

  /** An array of strings. */
  function Strings(xs: seq<string>): (es: seq<Option<Json>>)
    ensures |es| == |xs| && forall k :: 0 <= k < |xs| ==> es[k] == Some(Str(xs[k]))
  {
    seq(|xs|, k requires 0 <= k < |xs| => Some(Str(xs[k])))
  }
}
