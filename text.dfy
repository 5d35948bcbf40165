/** The JavaScript string primitives the portfolio code relies on:
    `split` on one character, `join`, `trim`, `replace(/\s+/g, …)`, `indexOf`,
    decimal parsing of a bracket index and number-to-string conversion. */
module Text {

  /** The characters JavaScript's `trim` removes and its regular-expression class `\s` matches:
      the WhiteSpace and LineTerminator productions of ECMAScript. */
  predicate IsWhitespace(c: char) {
    || c == ' ' || c == '\t' || c == '\n' || c == '\r'
    || c == '\U{000B}' || c == '\U{000C}' || c == '\U{00A0}' || c == '\U{1680}'
    || ('\U{2000}' <= c <= '\U{200A}')
    || c == '\U{2028}' || c == '\U{2029}' || c == '\U{202F}' || c == '\U{205F}'
    || c == '\U{3000}' || c == '\U{FEFF}'
  }

  predicate NoWhitespace(s: string) {
    forall k :: 0 <= k < |s| ==> !IsWhitespace(s[k])
  }

  lemma NoWhitespaceAppend(a: string, b: string)
    requires NoWhitespace(a) && NoWhitespace(b)
    ensures NoWhitespace(a + b)
  {
    forall k | 0 <= k < |a + b| ensures !IsWhitespace((a + b)[k]) {
      if k >= |a| {
        assert (a + b)[k] == b[k - |a|];
      }
    }
  }

  /** Number of occurrences of `c` in `s`. */
  function Count(s: string, c: char): nat {
    if s == [] then 0 else (if s[0] == c then 1 else 0) + Count(s[1..], c)
  }

  /** `c` occurs in `s` exactly when it is counted. */
  lemma {:induction false} CountPositive(s: string, c: char)
    ensures Count(s, c) > 0 <==> c in s
  {
    if s != [] {
      CountPositive(s[1..], c);
      assert s == [s[0]] + s[1..];
    }
  }

  /** `s.split(sep)` for a one-character separator: the pieces between separators, always at least one. */
  function Split(s: string, sep: char): (parts: seq<string>)
    ensures |parts| == Count(s, sep) + 1
    ensures forall k :: 0 <= k < |parts| ==> sep !in parts[k]
  {
    if s == [] then [""]
    else
      var rest := Split(s[1..], sep);
      if s[0] == sep then [""] + rest
      else [[s[0]] + rest[0]] + rest[1..]
  }

  /** `parts.join(sep)`. */
  function Join(parts: seq<string>, sep: string): string {
    if |parts| == 0 then ""
    else if |parts| == 1 then parts[0]
    else parts[0] + sep + Join(parts[1..], sep)
  }

  lemma JoinConsHead(c: char, a: string, rest: seq<string>, sep: string)
    ensures Join([[c] + a] + rest, sep) == [c] + Join([a] + rest, sep)
  {
    var xs, ys := [[c] + a] + rest, [a] + rest;
    assert xs[1..] == rest && ys[1..] == rest;
  }

  /** Splitting and joining back with the same separator gives the original string. */
  lemma {:induction false} SplitThenJoin(s: string, sep: char)
    ensures Join(Split(s, sep), [sep]) == s
  {
    if s != [] {
      var rest := Split(s[1..], sep);
      SplitThenJoin(s[1..], sep);
      if s[0] == sep {
        assert ([""] + rest)[1..] == rest;
      } else {
        calc {
          Join(Split(s, sep), [sep]);
          Join([[s[0]] + rest[0]] + rest[1..], [sep]);
          { JoinConsHead(s[0], rest[0], rest[1..], [sep]); }
          [s[0]] + Join([rest[0]] + rest[1..], [sep]);
          { assert [rest[0]] + rest[1..] == rest; }
          [s[0]] + s[1..];
        }
      }
    }
  }

  lemma {:induction false} SplitPrefix(a: string, b: string, sep: char)
    requires sep !in a
    ensures Split(a + b, sep) == [a + Split(b, sep)[0]] + Split(b, sep)[1..]
  {
    if a == [] {
      var parts := Split(b, sep);
      assert a + b == b && a + parts[0] == parts[0];
      assert [parts[0]] + parts[1..] == parts;
    } else {
      assert (a + b)[0] == a[0] && (a + b)[1..] == a[1..] + b;
      SplitPrefix(a[1..], b, sep);
      assert [a[0]] + (a[1..] + Split(b, sep)[0]) == a + Split(b, sep)[0];
    }
  }

  /** Joining pieces free of the separator and splitting again gives back the pieces. */
  lemma {:induction false} JoinThenSplit(parts: seq<string>, sep: char)
    requires |parts| >= 1
    requires forall k :: 0 <= k < |parts| ==> sep !in parts[k]
    ensures Split(Join(parts, [sep]), sep) == parts
  {
    if |parts| == 1 {
      SplitPrefix(parts[0], [], sep);
      assert parts[0] + [] == parts[0];
    } else {
      var tail := Join(parts[1..], [sep]);
      JoinThenSplit(parts[1..], sep);
      assert Join(parts, [sep]) == parts[0] + ([sep] + tail);
      SplitPrefix(parts[0], [sep] + tail, sep);
      assert ([sep] + tail)[0] == sep && ([sep] + tail)[1..] == tail;
      assert Split([sep] + tail, sep) == [""] + parts[1..];
      assert parts[0] + "" == parts[0];
    }
  }

  /** A string with one separator splits into the two pieces around it. */
  lemma SplitAround(a: string, b: string, sep: char)
    requires sep !in a && sep !in b
    ensures Split(a + [sep] + b, sep) == [a, b]
  {
    SplitPrefix(b, [], sep);
    assert b + [] == b;
    assert Split([sep] + b, sep) == [""] + Split(b, sep);
    assert a + [sep] + b == a + ([sep] + b);
    SplitPrefix(a, [sep] + b, sep);
    assert a + "" == a;
  }

  /** Every character of `s` is white space. */
  predicate AllWhitespace(s: string) {
    forall k :: 0 <= k < |s| ==> IsWhitespace(s[k])
  }

  /** `s` with its leading white space removed: a suffix of `s`, every character cut off is
      white space, and the suffix does not start with white space. */
  function TrimStart(s: string): (r: string)
    ensures |r| <= |s| && r == s[|s| - |r|..]
    ensures AllWhitespace(s[..|s| - |r|])
    ensures r == [] || !IsWhitespace(r[0])
    ensures s != [] && IsWhitespace(s[0]) ==> |r| < |s|
  {
    if s != [] && IsWhitespace(s[0]) then TrimStart(s[1..]) else s
  }

  /** `s` with its trailing white space removed: a prefix of `s`, every character cut off is
      white space, and the prefix does not end with white space. */
  function TrimEnd(s: string): (r: string)
    ensures |r| <= |s| && r == s[..|r|]
    ensures AllWhitespace(s[|r|..])
    ensures r == [] || !IsWhitespace(r[|r| - 1])
  {
    if s != [] && IsWhitespace(s[|s| - 1]) then TrimEnd(s[..|s| - 1]) else s
  }

  /** A string that `trim` leaves alone: no white space at either end. */
  predicate Trimmed(s: string) {
    s == [] || (!IsWhitespace(s[0]) && !IsWhitespace(s[|s| - 1]))
  }

  /** `r` is `s` with only white space cut off at its two ends. */
  ghost predicate WhitespaceAround(s: string, r: string) {
    exists a: string, b: string :: s == a + r + b && AllWhitespace(a) && AllWhitespace(b)
  }

  /** `s.trim()`: `s` with the white space at both ends cut off, so the result has none at
      either end and a string that has none to begin with is kept. */
  function Trim(s: string): (r: string)
    ensures WhitespaceAround(s, r) && Trimmed(r)
    ensures |r| <= |s|
    ensures Trimmed(s) ==> r == s
  {
    var t := TrimStart(s);
    var r := TrimEnd(t);
    assert r != [] ==> r[0] == t[0];
    CutEnds(s, t, r);
    r
  }

  /** Cutting white space off the front and then the back of `s` cuts only white space. */
  lemma CutEnds(s: string, t: string, r: string)
    requires |t| <= |s| && t == s[|s| - |t|..] && AllWhitespace(s[..|s| - |t|])
    requires |r| <= |t| && r == t[..|r|] && AllWhitespace(t[|r|..])
    ensures WhitespaceAround(s, r)
  {
    var a, b := s[..|s| - |t|], t[|r|..];
    assert s == a + t;
    assert t == r + b;
    assert s == a + r + b;
  }

  lemma TrimSkipsLeadingSpace(x: string)
    ensures Trim([' '] + x) == Trim(x)
  {
    assert ([' '] + x)[1..] == x;
  }

  /** `s.replace(/\s+/g, rep)`: every maximal run of white space becomes one copy of `rep`. */
  function CollapseWhitespace(s: string, rep: string): string
    decreases |s|
  {
    if s == [] then []
    else if IsWhitespace(s[0]) then rep + CollapseWhitespace(TrimStart(s), rep)
    else [s[0]] + CollapseWhitespace(s[1..], rep)
  }

  /** With a white-space-free replacement the result has no white space, and it is never longer
      than the input when the replacement is a single character. */
  lemma {:induction false} CollapseWhitespaceRemovesAll(s: string, rep: string)
    requires NoWhitespace(rep)
    ensures NoWhitespace(CollapseWhitespace(s, rep))
    ensures |rep| == 1 ==> |CollapseWhitespace(s, rep)| <= |s|
    decreases |s|
  {
    if s != [] {
      if IsWhitespace(s[0]) {
        CollapseWhitespaceRemovesAll(TrimStart(s), rep);
      } else {
        CollapseWhitespaceRemovesAll(s[1..], rep);
      }
    }
  }

  /** A string without white space is left unchanged. */
  lemma {:induction false} CollapseWhitespaceIdentity(s: string, rep: string)
    requires NoWhitespace(s)
    ensures CollapseWhitespace(s, rep) == s
  {
    if s != [] {
      assert !IsWhitespace(s[0]);
      CollapseWhitespaceIdentity(s[1..], rep);
    }
  }

  /** Characters that are not white space are copied one by one. */
  lemma {:induction false} CollapseWord(a: string, s: string, rep: string)
    requires NoWhitespace(a)
    ensures CollapseWhitespace(a + s, rep) == a + CollapseWhitespace(s, rep)
  {
    if a == [] {
      assert a + s == s;
    } else {
      assert !IsWhitespace(a[0]);
      assert (a + s)[0] == a[0] && (a + s)[1..] == a[1..] + s;
      CollapseWord(a[1..], s, rep);
      assert [a[0]] + (a[1..] + CollapseWhitespace(s, rep)) == a + CollapseWhitespace(s, rep);
    }
  }

  /** Cutting a run of white space off the front of a string that continues without it. */
  lemma {:induction false} TrimStartRun(w: string, s: string)
    requires AllWhitespace(w) && (s == [] || !IsWhitespace(s[0]))
    ensures TrimStart(w + s) == s
  {
    if w == [] {
      assert w + s == s;
    } else {
      assert (w + s)[0] == w[0] && (w + s)[1..] == w[1..] + s;
      TrimStartRun(w[1..], s);
    }
  }

  /** A maximal run of white space becomes exactly one copy of the replacement. */
  lemma CollapseRun(w: string, s: string, rep: string)
    requires w != [] && AllWhitespace(w) && (s == [] || !IsWhitespace(s[0]))
    ensures CollapseWhitespace(w + s, rep) == rep + CollapseWhitespace(s, rep)
  {
    assert (w + s)[0] == w[0];
    TrimStartRun(w, s);
  }

  /** Non-empty words without white space. */
  predicate Words(ws: seq<string>) {
    forall k :: 0 <= k < |ws| ==> ws[k] != [] && NoWhitespace(ws[k])
  }

  /** Non-empty runs of white space. */
  predicate Gaps(gaps: seq<string>) {
    forall k :: 0 <= k < |gaps| ==> gaps[k] != [] && AllWhitespace(gaps[k])
  }

  /** The words written out with `gaps[k]` between word `k` and word `k + 1`. */
  function Spell(ws: seq<string>, gaps: seq<string>): (s: string)
    requires |ws| >= 1 && |gaps| == |ws| - 1
    ensures |ws[0]| <= |s| && s[..|ws[0]|] == ws[0]
  {
    if |ws| == 1 then ws[0] else ws[0] + gaps[0] + Spell(ws[1..], gaps[1..])
  }

  lemma SpellStartsWord(ws: seq<string>, gaps: seq<string>, t: string)
    requires |ws| >= 1 && |gaps| == |ws| - 1 && Words(ws)
    ensures var s := Spell(ws, gaps) + t; s != [] && !IsWhitespace(s[0])
  {
    var sp := Spell(ws, gaps);
    assert ws[0] != [] && NoWhitespace(ws[0]);
    assert sp[..|ws[0]|] == ws[0];
    assert (sp + t)[0] == sp[0] == ws[0][0];
  }

  /** Words separated by arbitrary white-space runs come out joined by single replacements,
      whatever follows them: `s.replace(/\s+/g, rep)` turns the words into `words.join(rep)`. */
  lemma {:induction false} CollapseWords(ws: seq<string>, gaps: seq<string>, t: string, rep: string)
    requires |ws| >= 1 && |gaps| == |ws| - 1 && Words(ws) && Gaps(gaps)
    ensures CollapseWhitespace(Spell(ws, gaps) + t, rep) == Join(ws, rep) + CollapseWhitespace(t, rep)
  {
    if |ws| == 1 {
      assert NoWhitespace(ws[0]);
      CollapseWord(ws[0], t, rep);
    } else {
      var w0, g0, ws', gaps' := ws[0], gaps[0], ws[1..], gaps[1..];
      assert NoWhitespace(w0) && g0 != [] && AllWhitespace(g0);
      assert Words(ws') && Gaps(gaps');
      var rest := Spell(ws', gaps');
      var c := CollapseWhitespace(t, rep);
      calc {
        CollapseWhitespace(Spell(ws, gaps) + t, rep);
        { assert Spell(ws, gaps) == w0 + g0 + rest;
          assert Spell(ws, gaps) + t == w0 + (g0 + (rest + t)); }
        CollapseWhitespace(w0 + (g0 + (rest + t)), rep);
        { CollapseWord(w0, g0 + (rest + t), rep); }
        w0 + CollapseWhitespace(g0 + (rest + t), rep);
        { SpellStartsWord(ws', gaps', t);
          CollapseRun(g0, rest + t, rep); }
        w0 + (rep + CollapseWhitespace(rest + t, rep));
        { CollapseWords(ws', gaps', t, rep); }
        w0 + (rep + (Join(ws', rep) + c));
        { assert w0 + (rep + (Join(ws', rep) + c)) == (w0 + rep + Join(ws', rep)) + c; }
        (w0 + rep + Join(ws', rep)) + c;
        { assert Join(ws, rep) == w0 + rep + Join(ws', rep); }
        Join(ws, rep) + c;
      }
    }
  }

  /** A name with white space around and between its words: each run, the outer ones
      included, becomes exactly one replacement. */
  lemma {:induction false} CollapseSpelled(lead: string, ws: seq<string>, gaps: seq<string>, trail: string, rep: string)
    requires |ws| >= 1 && |gaps| == |ws| - 1 && Words(ws) && Gaps(gaps)
    requires AllWhitespace(lead) && AllWhitespace(trail)
    ensures CollapseWhitespace(lead + Spell(ws, gaps) + trail, rep)
            == (if lead == [] then "" else rep) + Join(ws, rep) + (if trail == [] then "" else rep)
  {
    var sp := Spell(ws, gaps);
    var body := sp + trail;
    var pre := if lead == [] then "" else rep;
    var post := if trail == [] then "" else rep;
    var j := Join(ws, rep);
    assert CollapseWhitespace(body, rep) == j + post by {
      CollapseWords(ws, gaps, trail, rep);
      CollapseTrail(trail, rep);
    }
    SpellStartsWord(ws, gaps, trail);
    CollapseLead(lead, body, rep);
    calc {
      CollapseWhitespace(lead + sp + trail, rep);
      { assert lead + sp + trail == lead + body; }
      CollapseWhitespace(lead + body, rep);
      pre + (j + post);
      pre + j + post;
    }
  }

  /** A leading run of white space before a word becomes one replacement, and no run gives
      nothing. */
  lemma CollapseLead(lead: string, body: string, rep: string)
    requires AllWhitespace(lead) && body != [] && !IsWhitespace(body[0])
    ensures CollapseWhitespace(lead + body, rep) == (if lead == [] then "" else rep) + CollapseWhitespace(body, rep)
  {
    if lead == [] {
      assert lead + body == body;
    } else {
      CollapseRun(lead, body, rep);
    }
  }

  /** A trailing run of white space becomes one replacement, and no run gives nothing. */
  lemma CollapseTrail(trail: string, rep: string)
    requires AllWhitespace(trail)
    ensures CollapseWhitespace(trail, rep) == if trail == [] then "" else rep
  {
    if trail != [] {
      CollapseRun(trail, [], rep);
      assert trail + [] == trail;
    }
  }

  /** `s.indexOf(c)` for a character known to occur. */
  function IndexOf(s: string, c: char): (i: nat)
    requires c in s
    ensures i < |s| && s[i] == c && c !in s[..i]
  {
    if s[0] == c then 0
    else
      var i := IndexOf(s[1..], c);
      assert s[1..][..i] == s[1..i + 1];
      i + 1
  }

  lemma {:induction false} IndexOfAfter(a: string, c: char, b: string)
    requires c !in a
    ensures c in a + [c] + b && IndexOf(a + [c] + b, c) == |a|
  {
    if a != [] {
      assert (a + [c] + b)[1..] == a[1..] + [c] + b;
      IndexOfAfter(a[1..], c, b);
    }
  }

  predicate IsDigit(c: char) {
    '0' <= c <= '9'
  }

  predicate AllDigits(s: string) {
    forall k :: 0 <= k < |s| ==> IsDigit(s[k])
  }

  function DigitChar(d: nat): (c: char)
    requires d < 10
    ensures IsDigit(c) && c as int - '0' as int == d
  {
    ('0' as int + d) as char
  }

  /** `Number.parseInt` of a non-empty run of decimal digits. */
  function ParseDigits(s: string): nat
    requires AllDigits(s)
  {
    if s == [] then 0 else ParseDigits(s[..|s| - 1]) * 10 + (s[|s| - 1] as int - '0' as int)
  }

  /** The decimal spelling of a natural number, as JavaScript's `String(n)` writes it. */
  function NatToString(n: nat): (s: string)
    ensures |s| >= 1 && AllDigits(s)
  {
    if n < 10 then [DigitChar(n)] else NatToString(n / 10) + [DigitChar(n % 10)]
  }

  /** `String(i)` for an integer. */
  function IntToString(i: int): string {
    if i < 0 then "-" + NatToString(-i) else NatToString(i)
  }

  /** Parsing the decimal spelling gives the number back, so distinct numbers have distinct spellings. */
  lemma {:induction false} ParseNatToString(n: nat)
    ensures ParseDigits(NatToString(n)) == n
  {
    if n >= 10 {
      var s := NatToString(n);
      assert s[..|s| - 1] == NatToString(n / 10);
      ParseNatToString(n / 10);
    }
  }

  lemma NatToStringInjective(a: nat, b: nat)
    requires a != b
    ensures NatToString(a) != NatToString(b)
  {
    ParseNatToString(a);
    ParseNatToString(b);
  }
}
