/** The list edits the section editors share. */
module Lists {
  import opened Wrappers
  import opened Json

  /** A list with no holes. */
  predicate Dense(xs: seq<Option<Json>>) {
    forall k :: 0 <= k < |xs| ==> xs[k].Some?
  }

  /** `xs.filter((_, i) => i !== index)`: position `index` is dropped and, as `filter` skips
      holes, so is every hole. On a list without holes exactly one entry goes, when `index` is
      a position of the list, and the others keep their order. */
  function Without(xs: seq<Option<Json>>, index: int): (r: seq<Option<Json>>)
    ensures Dense(r) && |r| <= |xs|
    ensures Dense(xs) ==> r == if 0 <= index < |xs| then xs[..index] + xs[index + 1..] else xs
  {
    if xs == [] then []
    else
      var rest := Without(xs[1..], index - 1);
      var r := (if index == 0 || xs[0].None? then [] else [xs[0]]) + rest;
      assert Dense(xs) && 0 < index < |xs| ==> xs[..index] + xs[index + 1..] == [xs[0]] + (xs[1..][..index - 1] + xs[1..][index..]);
      r
  }

  /** `[...xs, x]`. */
  function Append(xs: seq<Option<Json>>, x: Json): (r: seq<Option<Json>>)
    ensures |r| == |xs| + 1 && r[..|xs|] == xs && r[|xs|] == Some(x)
  {
    xs + [Some(x)]
  }

  /** Removing from a list of at least two entries never leaves it empty. */
  lemma WithoutKeepsOne(xs: seq<Option<Json>>, index: int)
    requires Dense(xs) && |xs| > 1
    ensures |Without(xs, index)| >= 1
  {
  }
}
