/** The nested-path writer of the field and image editors: split a dotted path, walk every
    segment but the last (reading `name[i]` as element `i` of the array `name`), create each
    missing or falsy container on the way, and assign the value under the last segment. */
module PathWriter {
  import opened Wrappers
  import opened Text
  import opened Json
  import opened Document

  /** An intermediate path segment: a plain key, or `name[index]`. */
  datatype Step = Key(name: string) | Index(name: string, index: nat)

  /** A segment the walk reads as `name[i]`: it contains both brackets. */
  predicate Bracketed(part: string) {
    '[' in part && ']' in part
  }

  /** A bracketed segment whose first `[` comes before its first `]`, with only decimal digits
      (at least one) between them. Text after the `]` is ignored, as the walk ignores it. */
  predicate WellFormedSegment(part: string) {
    Bracketed(part) ==>
      var open, close := IndexOf(part, '['), IndexOf(part, ']');
      open + 1 < close && AllDigits(part[open + 1..close])
  }

  function ParseSegment(part: string): Step
    requires WellFormedSegment(part)
  {
    if Bracketed(part) then
      var open, close := IndexOf(part, '['), IndexOf(part, ']');
      Index(part[..open], ParseDigits(part[open + 1..close]))
    else
      Key(part)
  }

  /** Every intermediate segment is well formed (the last one is never parsed). */
  predicate WellFormedPath(path: string) {
    var parts := Split(path, '.');
    forall k :: 0 <= k < |parts| - 1 ==> WellFormedSegment(parts[k])
  }

  /** The intermediate steps of a path: all its segments but the last. */
  function Steps(path: string): (steps: seq<Step>)
    requires WellFormedPath(path)
    ensures |steps| == |Split(path, '.')| - 1
  {
    var parts := Split(path, '.');
    seq(|parts| - 1, k requires 0 <= k < |parts| - 1 => ParseSegment(parts[k]))
  }

  /** The last segment of a path, used as a plain key with no bracket handling. */
  function LastKey(path: string): string {
    var parts := Split(path, '.');
    parts[|parts| - 1]
  }

  /** The value the cursor moves to at one step: the existing truthy value, or a new `{}`.
      For `name[i]` it is element `i` of `cursor[name]`, read from a new `[]` when `cursor[name]`
      is absent or falsy. The cursor must be an object and `cursor[name]` a container. */
  function Child(cur: Json, s: Step): Result<Json, WriteError> {
    if !cur.Obj? then Failure(if cur.Arr? then Unsupported else TypeError)
    else match s
      case Key(k) =>
        Success(if Truthy(Prop(Some(cur), k)) then cur.fields[k] else Obj(map[]))
      case Index(k, i) =>
        var list := if Truthy(Prop(Some(cur), k)) then cur.fields[k] else Arr([]);
        if list.Arr? || list.Obj? then
          Success(if Truthy(Element(list, i)) then Element(list, i).value else Obj(map[]))
        else
          Failure(TypeError)
  }

  /** The cursor's container once the walked-into value has become `child`. */
  function Put(cur: Json, s: Step, child: Json): (r: Result<Json, WriteError>)
    ensures Child(cur, s).Success? ==> r.Success? && r.value.Obj?
  {
    match s
    case Key(k) => SetKey(Some(cur), k, child)
    case Index(k, i) => PutIndexed(cur, k, i, child)
  }

  /** The document after writing `v` at the path made of `steps` and `last`, starting from `cur`. */
  function SetPath(cur: Json, steps: seq<Step>, last: string, v: Json): (r: Result<Json, WriteError>)
    ensures r.Success? ==> cur.Obj? && r.value.Obj?
    decreases |steps|
  {
    if steps == [] then SetKey(Some(cur), last, v)
    else
      var child :- Child(cur, steps[0]);
      var written :- SetPath(child, steps[1..], last, v);
      Put(cur, steps[0], written)
  }

  /** Reading one step: `cur[name]`, or element `i` of `cur[name]`; `None` when absent. */
  function Read(cur: Json, s: Step): Option<Json> {
    match s
    case Key(k) => Prop(Some(cur), k)
    case Index(k, i) => var list := Prop(Some(cur), k); if list.Some? then Element(list.value, i) else None
  }

  /** Reading a path: the value found by following the same steps, `None` when something on the
      way is missing or is not a container of the kind the step needs. */
  function Follow(cur: Json, steps: seq<Step>, last: string): Option<Json>
    decreases |steps|
  {
    if steps == [] then Prop(Some(cur), last)
    else
      var next := Read(cur, steps[0]);
      if next.Some? then Follow(next.value, steps[1..], last) else None
  }

  /** The value at a path of the document. */
  function GetAtPath(doc: Json, path: string): Option<Json>
    requires WellFormedPath(path)
  {
    Follow(doc, Steps(path), LastKey(path))
  }

  /** The document after writing `v` at `path` into `doc`. */
  function SetAtPath(doc: Json, path: string, v: Json): Result<Json, WriteError>
    requires WellFormedPath(path)
  {
    SetPath(doc, Steps(path), LastKey(path), v)
  }

  // ---------------------------------------------------------------------------------------
  // One step

  /** The walk moves to what the step reads when that is truthy, and to a new `{}` otherwise. */
  lemma ChildReads(cur: Json, s: Step)
    requires Child(cur, s).Success?
    ensures var c := Child(cur, s).value;
            if Truthy(Read(cur, s)) then Read(cur, s) == Some(c) else c == Obj(map[])
  {
  }

  /** After writing back, the step reads the written value. */
  lemma ReadPut(cur: Json, s: Step, child: Json)
    requires Child(cur, s).Success?
    ensures Read(Put(cur, s, child).value, s) == Some(child)
  {
    if s.Index? {
      PutIndexedEffect(cur, s.name, s.index, child);
    }
  }

  /** Two steps from the same container that read different places. */
  predicate Apart(s: Step, t: Step) {
    s.name != t.name || (s.Index? && t.Index? && s.index != t.index)
  }

  /** Writing back through one step leaves every key but the step's own as it was. */
  lemma PropPutOther(cur: Json, s: Step, child: Json, k: string)
    requires Child(cur, s).Success? && k != s.name
    ensures Prop(Some(Put(cur, s, child).value), k) == Prop(Some(cur), k)
  {
    if s.Index? {
      PutIndexedEffect(cur, s.name, s.index, child);
    }
  }

  /** Writing back through one step changes nothing another step reads. */
  lemma ReadPutOther(cur: Json, s: Step, child: Json, t: Step)
    requires Child(cur, s).Success? && Apart(s, t)
    ensures Read(Put(cur, s, child).value, t) == Read(cur, t)
  {
    if s.Index? {
      PutIndexedEffect(cur, s.name, s.index, child);
    }
  }

  /** Following any path from an empty object, or from a value that is not an object, finds nothing. */
  lemma FollowFromNothing(x: Json, steps: seq<Step>, last: string)
    requires x == Obj(map[]) || !x.Obj?
    ensures Follow(x, steps, last) == None
  {
  }

  /** Following a path from `cur` through a step the walk would take finds what the walk finds
      from the value it moved to. */
  lemma FollowThroughChild(cur: Json, steps: seq<Step>, last: string)
    requires steps != [] && Child(cur, steps[0]).Success?
    ensures Follow(cur, steps, last) == Follow(Child(cur, steps[0]).value, steps[1..], last)
  {
    ChildReads(cur, steps[0]);
    var n := Read(cur, steps[0]);
    if !Truthy(n) {
      FollowFromNothing(Obj(map[]), steps[1..], last);
      if n.Some? {
        FollowFromNothing(n.value, steps[1..], last);
      }
    }
  }

  // ---------------------------------------------------------------------------------------
  // What a write does

  /** Reading the path after a successful write gives exactly the written value. */
  lemma {:induction false} ReadAfterWrite(cur: Json, steps: seq<Step>, last: string, v: Json)
    requires SetPath(cur, steps, last, v).Success?
    ensures Follow(SetPath(cur, steps, last, v).value, steps, last) == Some(v)
    decreases |steps|
  {
    if steps != [] {
      var child := Child(cur, steps[0]).value;
      var written := SetPath(child, steps[1..], last, v).value;
      ReadAfterWrite(child, steps[1..], last, v);
      ReadPut(cur, steps[0], written);
    }
  }

  /** The same for path strings: `getAtPath(setAtPath(doc, p, v), p) == v`. */
  lemma GetAfterSet(doc: Json, path: string, v: Json)
    requires WellFormedPath(path)
    requires SetAtPath(doc, path, v).Success?
    ensures GetAtPath(SetAtPath(doc, path, v).value, path) == Some(v)
  {
    ReadAfterWrite(doc, Steps(path), LastKey(path), v);
  }

  /** The structure a write creates in an empty object: one object per key step, and for
      `name[i]` an array whose first `i` positions are holes. */
  function Fresh(steps: seq<Step>, last: string, v: Json): Json
    decreases |steps|
  {
    if steps == [] then Obj(map[last := v])
    else match steps[0]
      case Key(k) => Obj(map[k := Fresh(steps[1..], last, v)])
      case Index(k, i) => Obj(map[k := Arr(seq(i, _ => None) + [Some(Fresh(steps[1..], last, v))])])
  }

  /** A write into an empty document always succeeds and creates exactly the minimal structure. */
  lemma {:induction false} WriteIntoEmpty(steps: seq<Step>, last: string, v: Json)
    ensures SetPath(Obj(map[]), steps, last, v) == Success(Fresh(steps, last, v))
    decreases |steps|
  {
    if steps != [] {
      WriteIntoEmpty(steps[1..], last, v);
      var f := Fresh(steps[1..], last, v);
      if steps[0].Index? {
        var es: seq<Option<Json>> := [];
        assert StoreAt(es, steps[0].index, f) == seq(steps[0].index, _ => None) + [Some(f)];
      }
    }
  }

  /** The first name a path reads at depth `j`: the key of step `j`, or the last segment. */
  function NameAt(steps: seq<Step>, last: string, j: nat): string
    requires j <= |steps|
  {
    if j < |steps| then steps[j].name else last
  }

  /** Two paths that agree on their first `j` steps and part at depth `j`: there they read
      different keys, or different elements of the same array. */
  predicate DivergeAt(ps: seq<Step>, pl: string, qs: seq<Step>, ql: string, j: nat) {
    && j <= |ps| && j <= |qs| && ps[..j] == qs[..j]
    && (|| NameAt(ps, pl, j) != NameAt(qs, ql, j)
        || (j < |ps| && j < |qs| && Apart(ps[j], qs[j])))
  }

  /** A write at a plain key changes nothing a path starting elsewhere reads. */
  lemma WriteKeyLeavesOthers(cur: Json, pl: string, v: Json, qs: seq<Step>, ql: string)
    requires cur.Obj? && NameAt(qs, ql, 0) != pl
    ensures Follow(SetPath(cur, [], pl, v).value, qs, ql) == Follow(cur, qs, ql)
  {
    var r := SetPath(cur, [], pl, v).value;
    if qs != [] {
      assert Read(r, qs[0]) == Read(cur, qs[0]);
    }
  }

  /** A write through a first step changes nothing a path parting from it at the root reads. */
  lemma WriteStepLeavesOthers(cur: Json, ps: seq<Step>, pl: string, v: Json, qs: seq<Step>, ql: string)
    requires ps != [] && SetPath(cur, ps, pl, v).Success?
    requires NameAt(ps, pl, 0) != NameAt(qs, ql, 0) || (qs != [] && Apart(ps[0], qs[0]))
    ensures Follow(SetPath(cur, ps, pl, v).value, qs, ql) == Follow(cur, qs, ql)
  {
    var c := Child(cur, ps[0]).value;
    var w := SetPath(c, ps[1..], pl, v).value;
    var r := Put(cur, ps[0], w).value;
    assert SetPath(cur, ps, pl, v).value == r;
    if qs == [] {
      PropPutOther(cur, ps[0], w, ql);
    } else {
      ReadPutOther(cur, ps[0], w, qs[0]);
    }
  }

  /** A write changes nothing that a path parting from it reads. */
  lemma {:induction false} WriteLeavesOthers(cur: Json, ps: seq<Step>, pl: string, v: Json, qs: seq<Step>, ql: string, j: nat)
    requires SetPath(cur, ps, pl, v).Success?
    requires DivergeAt(ps, pl, qs, ql, j)
    ensures Follow(SetPath(cur, ps, pl, v).value, qs, ql) == Follow(cur, qs, ql)
    decreases j
  {
    if ps == [] {
      WriteKeyLeavesOthers(cur, pl, v, qs, ql);
    } else if j == 0 {
      WriteStepLeavesOthers(cur, ps, pl, v, qs, ql);
    } else {
      var c := Child(cur, ps[0]).value;
      var w := SetPath(c, ps[1..], pl, v).value;
      assert SetPath(cur, ps, pl, v).value == Put(cur, ps[0], w).value;
      assert qs[0] == ps[..j][0] == ps[0];
      assert ps[1..][..j - 1] == ps[..j][1..] == qs[..j][1..] == qs[1..][..j - 1];
      WriteLeavesOthers(c, ps[1..], pl, v, qs[1..], ql, j - 1);
      ReadPut(cur, ps[0], w);
      FollowThroughChild(cur, qs, ql);
    }
  }

  /** Storing twice into the same element of a container: the second value wins. */
  lemma PutElementTwice(list: Json, i: nat, a: Json, b: Json)
    requires list.Arr? || list.Obj?
    ensures PutElement(PutElement(list, i, a).value, i, b) == PutElement(list, i, b)
  {
    if list.Arr? {
      StoreAtTwice(list.elems, i, a, b);
    } else {
      assert list.fields[NatToString(i) := a][NatToString(i) := b] == list.fields[NatToString(i) := b];
    }
  }

  /** Storing twice into the same element under the same key: the second value wins. */
  lemma PutIndexedTwice(cur: Json, k: string, i: nat, a: Json, b: Json)
    requires PutIndexed(cur, k, i, a).Success?
    ensures PutIndexed(PutIndexed(cur, k, i, a).value, k, i, b) == PutIndexed(cur, k, i, b)
  {
    var list := if Truthy(Prop(Some(cur), k)) then cur.fields[k] else Arr([]);
    var list1 := PutElement(list, i, a).value;
    var list2 := PutElement(list, i, b).value;
    var mid := Obj(cur.fields[k := list1]);
    assert PutIndexed(cur, k, i, a).value == mid;
    assert Prop(Some(mid), k) == Some(list1) && Truthy(Some(list1));
    PutElementTwice(list, i, a, b);
    assert PutIndexed(mid, k, i, b) == Success(Obj(cur.fields[k := list1][k := list2]));
    assert cur.fields[k := list1][k := list2] == cur.fields[k := list2];
  }

  /** Writing back twice through the same step: the second write wins. */
  lemma PutTwice(cur: Json, s: Step, a: Json, b: Json)
    requires Child(cur, s).Success?
    ensures Child(Put(cur, s, a).value, s).Success?
    ensures Put(Put(cur, s, a).value, s, b) == Put(cur, s, b)
  {
    match s
    case Key(k) =>
      assert cur.fields[k := a][k := b] == cur.fields[k := b];
    case Index(k, i) =>
      PutIndexedEffect(cur, k, i, a);
      PutIndexedTwice(cur, k, i, a, b);
  }

  /** Of two writes at the same path, the second wins; writing the same value twice is writing it once. */
  lemma {:induction false} LastWriteWins(cur: Json, steps: seq<Step>, last: string, a: Json, b: Json)
    requires SetPath(cur, steps, last, a).Success?
    ensures SetPath(SetPath(cur, steps, last, a).value, steps, last, b) == SetPath(cur, steps, last, b)
    decreases |steps|
  {
    if steps == [] {
      assert cur.fields[last := a][last := b] == cur.fields[last := b];
    } else {
      var s := steps[0];
      var c := Child(cur, s).value;
      var w1 := SetPath(c, steps[1..], last, a).value;
      var r1 := Put(cur, s, w1).value;
      ReadPut(cur, s, w1);
      ChildReads(r1, s);
      PutTwice(cur, s, w1, w1);
      assert Child(r1, s) == Success(w1);
      LastWriteWins(c, steps[1..], last, a, b);
      if SetPath(c, steps[1..], last, b).Success? {
        PutTwice(cur, s, w1, SetPath(c, steps[1..], last, b).value);
      }
    }
  }

  // ---------------------------------------------------------------------------------------
  // The walk over the shared document

  /** A container the walk has passed through and the step it took out of it. JavaScript
      updates the containers in place; here each is rebuilt, innermost first, once the leaf is set. */
  datatype Frame = Frame(container: Json, step: Step)

  ghost predicate Walkable(frames: seq<Frame>) {
    forall k :: 0 <= k < |frames| ==> Child(frames[k].container, frames[k].step).Success?
  }

  /** Rebuilding the containers of `frames` around the innermost value `x`. */
  ghost function Plug(frames: seq<Frame>, x: Json): Json
    requires Walkable(frames)
    decreases |frames|
  {
    if frames == [] then x
    else
      var f := frames[|frames| - 1];
      Plug(frames[..|frames| - 1], Put(f.container, f.step, x).value)
  }

  ghost function Lift(frames: seq<Frame>, r: Result<Json, WriteError>): Result<Json, WriteError>
    requires Walkable(frames)
  {
    if r.Failure? then r else Success(Plug(frames, r.value))
  }

  /** Taking one more step keeps the write's outcome: the containers passed so far, rebuilt
      around the rest of the write from the new cursor, give the whole write. */
  lemma Push(root: Json, steps: seq<Step>, last: string, v: Json, frames: seq<Frame>, cur: Json, i: nat)
    requires i < |steps| && Walkable(frames) && Child(cur, steps[i]).Success?
    requires SetPath(root, steps, last, v) == Lift(frames, SetPath(cur, steps[i..], last, v))
    ensures Walkable(frames + [Frame(cur, steps[i])])
    ensures SetPath(root, steps, last, v)
            == Lift(frames + [Frame(cur, steps[i])], SetPath(Child(cur, steps[i]).value, steps[i + 1..], last, v))
  {
    var frames' := frames + [Frame(cur, steps[i])];
    assert steps[i..][1..] == steps[i + 1..];
    assert frames'[..|frames|] == frames;
  }

  /** Rebuilding the innermost container first leaves the outer ones to rebuild. */
  lemma Pop(frames: seq<Frame>, x: Json)
    requires frames != [] && Walkable(frames)
    ensures var f := frames[|frames| - 1];
            && Walkable(frames[..|frames| - 1])
            && Plug(frames, x) == Plug(frames[..|frames| - 1], Put(f.container, f.step, x).value)
  {
  }

  /** A walk that cannot take its first step writes nothing. */
  lemma Blocked(cur: Json, steps: seq<Step>, last: string, v: Json)
    requires steps != [] && Child(cur, steps[0]).Failure?
    ensures SetPath(cur, steps, last, v).Failure?
  {
  }

  /** The field editor's write of `value` at `path`: create the document when it is missing,
      walk the intermediate segments creating each missing or falsy container, then assign the
      last segment. A walk that cannot be done leaves the document as it was. */
  method WriteAtPath(win: Window, path: string, value: Json) returns (ok: bool)
    requires WellFormedPath(path)
    modifies win
    ensures win.storage == old(win.storage)
    ensures var root := OrEmpty(old(win.portfolioData));
            var r := SetAtPath(root, path, value);
            ok == r.Success? && win.portfolioData == Some(if ok then r.value else root)
  {
    win.EnsureDocument();
    var root := win.portfolioData.value;
    var parts := Split(path, '.');
    ghost var steps := Steps(path);
    var last := parts[|parts| - 1];
    var current := root;
    var frames: seq<Frame> := [];
    for i := 0 to |parts| - 1
      invariant Walkable(frames)
      invariant win.portfolioData == Some(root) && win.storage == old(win.storage)
      invariant SetPath(root, steps, last, value) == Lift(frames, SetPath(current, steps[i..], last, value))
    {
      var part := parts[i];
      assert WellFormedSegment(part) && steps[i] == ParseSegment(part);
      if !current.Obj? {
        // creating a property of a primitive throws; one of an array is not represented
        Blocked(current, steps[i..], last, value);
        return false;
      }
      var step, next;
      if '[' in part && ']' in part {
        var open, close := IndexOf(part, '['), IndexOf(part, ']');
        var arrayName, index := part[..open], ParseDigits(part[open + 1..close]);
        var list := if Truthy(Prop(Some(current), arrayName)) then current.fields[arrayName] else Arr([]);
        if !(list.Arr? || list.Obj?) {
          // creating an element of a truthy primitive throws
          assert steps[i] == Index(arrayName, index);
          Blocked(current, steps[i..], last, value);
          return false;
        }
        step := Index(arrayName, index);
        next := if Truthy(Element(list, index)) then Element(list, index).value else Obj(map[]);
      } else {
        step := Key(part);
        next := if Truthy(Prop(Some(current), part)) then current.fields[part] else Obj(map[]);
      }
      assert step == steps[i] && Child(current, step) == Success(next);
      Push(root, steps, last, value, frames, current, i);
      frames := frames + [Frame(current, step)];
      current := next;
    }
    var leaf := SetKey(Some(current), last, value);
    if leaf.Failure? {
      return false;
    }
    var acc := leaf.value;
    assert steps[|parts| - 1..] == [];
    while frames != []
      invariant Walkable(frames)
      invariant SetPath(root, steps, last, value) == Success(Plug(frames, acc))
      invariant win.storage == old(win.storage)
      decreases |frames|
    {
      var f := frames[|frames| - 1];
      Pop(frames, acc);
      acc := Put(f.container, f.step, acc).value;
      frames := frames[..|frames| - 1];
    }
    win.portfolioData := Some(acc);
    ok := true;
  }

  // ---------------------------------------------------------------------------------------
  // Examples

  /** Where the brackets of `name[digits]` are. */
  lemma BracketPositions(name: string, digits: string)
    requires '[' !in name && ']' !in name && AllDigits(digits)
    ensures var part := name + "[" + digits + "]";
            && '[' in part && IndexOf(part, '[') == |name|
            && ']' in part && IndexOf(part, ']') == |name| + 1 + |digits|
  {
    var part := name + "[" + digits + "]";
    IndexOfAfter(name, '[', digits + "]");
    assert part == name + ['['] + (digits + "]");
    var front := name + "[" + digits;
    assert ']' !in front by {
      assert forall k :: 0 <= k < |front| ==> front[k] != ']' by {
        assert forall k :: 0 <= k < |digits| ==> digits[k] != ']';
      }
    }
    IndexOfAfter(front, ']', "");
    assert part == front + [']'] + "";
  }

  /** `name[digits]` is an indexed step. */
  lemma IndexSegment(name: string, digits: string)
    requires '[' !in name && ']' !in name && AllDigits(digits) && |digits| >= 1
    ensures var part := name + "[" + digits + "]";
            WellFormedSegment(part) && ParseSegment(part) == Index(name, ParseDigits(digits))
  {
    var part := name + "[" + digits + "]";
    BracketPositions(name, digits);
    assert part[..|name|] == name;
    assert part[|name| + 1..|name| + 1 + |digits|] == digits;
  }

  lemma SegmentHasNoDot(name: string, digits: string)
    requires '.' !in name && AllDigits(digits)
    ensures '.' !in name + "[" + digits + "]"
  {
    var seg := name + "[" + digits + "]";
    assert forall k :: 0 <= k < |seg| ==> seg[k] != '.' by {
      assert forall k :: 0 <= k < |digits| ==> digits[k] != '.';
    }
  }

  lemma IndexedPathParts(name: string, digits: string, key: string)
    requires '.' !in name && '.' !in key && AllDigits(digits)
    ensures Split(name + "[" + digits + "]" + "." + key, '.') == [name + "[" + digits + "]", key]
  {
    var seg := name + "[" + digits + "]";
    SegmentHasNoDot(name, digits);
    SplitAround(seg, key, '.');
    assert seg + "." + key == seg + ['.'] + key;
  }

  /** A path `name[digits].key` is one indexed step followed by the key. */
  lemma IndexedThenKey(name: string, digits: string, key: string)
    requires '[' !in name && ']' !in name && '.' !in name && '.' !in key
    requires AllDigits(digits) && |digits| >= 1
    ensures var path := name + "[" + digits + "]" + "." + key;
            && WellFormedPath(path)
            && Steps(path) == [Index(name, ParseDigits(digits))] && LastKey(path) == key
  {
    IndexedPathParts(name, digits, key);
    IndexSegment(name, digits);
    TwoSegments(name + "[" + digits + "]" + "." + key, name + "[" + digits + "]", key);
  }

  /** A path of two segments has the first as its one step and the second as its last key. */
  lemma TwoSegments(path: string, seg: string, key: string)
    requires Split(path, '.') == [seg, key] && WellFormedSegment(seg)
    ensures WellFormedPath(path) && Steps(path) == [ParseSegment(seg)] && LastKey(path) == key
  {
  }

  /** One indexed step into an empty array, or into nothing truthy, then the key: the array
      gets holes up to the index and a new object holding only `key` there. */
  lemma IndexStepIntoEmptyList(doc: Json, name: string, n: nat, key: string, v: Json)
    requires doc.Obj? && (!Truthy(Prop(Some(doc), name)) || doc.fields[name] == Arr([]))
    ensures SetPath(doc, [Index(name, n)], key, v)
            == Success(Obj(doc.fields[name := Arr(seq(n, _ => None) + [Some(Obj(map[key := v]))])]))
  {
    var steps := [Index(name, n)];
    var entry := Obj(map[key := v]);
    assert Child(doc, steps[0]) == Success(Obj(map[]));
    assert steps[1..] == [];
    assert SetPath(Obj(map[]), [], key, v) == Success(entry);
    var es: seq<Option<Json>> := [];
    assert StoreAt(es, n, entry) == seq(n, _ => None) + [Some(entry)];
    assert SetPath(doc, steps, key, v) == Put(doc, steps[0], entry);
  }

  /** The same for the path `name[digits].key`. */
  lemma IndexedPathIntoEmptyList(doc: Json, name: string, digits: string, key: string, v: Json)
    requires '[' !in name && ']' !in name && '.' !in name && '.' !in key
    requires AllDigits(digits) && |digits| >= 1
    requires doc.Obj? && (!Truthy(Prop(Some(doc), name)) || doc.fields[name] == Arr([]))
    ensures var path := name + "[" + digits + "]" + "." + key;
            && WellFormedPath(path)
            && SetAtPath(doc, path, v)
               == Success(Obj(doc.fields[name := Arr(seq(ParseDigits(digits), _ => None) + [Some(Obj(map[key := v]))])]))
  {
    IndexedThenKey(name, digits, key);
    IndexStepIntoEmptyList(doc, name, ParseDigits(digits), key, v);
  }

  /** `"skills[0].name"` is one indexed step and the key `name`: writing `"Rust"` there into
      `{name: "Ada", skills: []}` gives `{name: "Ada", skills: [{name: "Rust"}]}`. */
  lemma SkillNameExample(path: string)
    requires path == "skills[0].name"
    ensures WellFormedPath(path)
    ensures SetAtPath(Obj(map["name" := Str("Ada"), "skills" := Arr([])]), path, Str("Rust"))
            == Success(Obj(map["name" := Str("Ada"), "skills" := Arr([Some(Obj(map["name" := Str("Rust")]))])]))
  {
    var doc := Obj(map["name" := Str("Ada"), "skills" := Arr([])]);
    assert "skills" + "[" + "0" + "]" + "." + "name" == path;
    IndexedPathIntoEmptyList(doc, "skills", "0", "name", Str("Rust"));
    assert ParseDigits("0") == 0 by {
      assert "0"[..0] == [];
    }
    var entry := Obj(map["name" := Str("Rust")]);
    assert seq(0, _ => None) + [Some(entry)] == [Some(entry)];
    assert doc.fields["skills" := Arr([Some(entry)])] == map["name" := Str("Ada"), "skills" := Arr([Some(entry)])];
  }

  /** `"projects[2].title"` written into an empty document creates the array with holes at
      positions 0 and 1 and the new object at position 2. */
  lemma ProjectTitleExample(path: string, v: Json)
    requires path == "projects[2].title"
    ensures WellFormedPath(path)
    ensures SetAtPath(Obj(map[]), path, v)
            == Success(Obj(map["projects" := Arr([None, None, Some(Obj(map["title" := v]))])]))
  {
    assert "projects" + "[" + "2" + "]" + "." + "title" == path;
    IndexedPathIntoEmptyList(Obj(map[]), "projects", "2", "title", v);
    assert ParseDigits("2") == 2 by {
      assert "2"[..0] == [];
    }
    assert seq(2, _ => None) + [Some(Obj(map["title" := v]))] == [None, None, Some(Obj(map["title" := v]))];
  }

  /** A path without a dot has no intermediate steps: it is assigned as one key, whatever it
      contains. */
  lemma SingleSegment(path: string, doc: Json, v: Json)
    requires '.' !in path && doc.Obj?
    ensures WellFormedPath(path)
    ensures SetAtPath(doc, path, v) == Success(Obj(doc.fields[path := v]))
  {
    SplitPrefix(path, [], '.');
    assert path + [] == path;
    assert Split(path, '.') == [path];
  }

  /** `"about[0]"` is assigned as a literal key of the document, brackets included. */
  lemma AboutExample(path: string, doc: Json, v: Json)
    requires path == "about[0]" && doc.Obj?
    ensures WellFormedPath(path)
    ensures SetAtPath(doc, path, v) == Success(Obj(doc.fields["about[0]" := v]))
  {
    assert '.' !in path;
    SingleSegment(path, doc, v);
  }
}
