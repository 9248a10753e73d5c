/** The JavaScript string operations the bot relies on: `trim`, `startsWith`,
    `includes`, `join`, `split(/\s+/)`, `toLowerCase` and `lastIndexOf`.
    Whitespace and letter case are the ASCII subset of JavaScript's. */
module Text {

  /** JavaScript's `\s` restricted to ASCII: space, tab, line feed,
      vertical tab, form feed and carriage return. */
  predicate IsSpace(c: char) {
    c == ' ' || c == '\t' || c == '\n' || c == '\U{000B}' || c == '\U{000C}' || c == '\r'
  }

  /** No character of `s` is whitespace. */
  predicate NoSpace(s: string) {
    forall i :: 0 <= i < |s| ==> !IsSpace(s[i])
  }

  /** Every character of `s` is whitespace (this includes the empty string). */
  predicate Blank(s: string) {
    forall i :: 0 <= i < |s| ==> IsSpace(s[i])
  }

  /** `s` neither starts nor ends with whitespace. */
  predicate Trimmed(s: string) {
    s == [] || (!IsSpace(s[0]) && !IsSpace(s[|s| - 1]))
  }

  /** The number of whitespace characters `s` starts with. */
  function LeadingSpaces(s: string): (n: nat)
    ensures n <= |s| && Blank(s[..n])
    ensures n < |s| ==> !IsSpace(s[n])
  {
    if s != [] && IsSpace(s[0]) then
      var n := LeadingSpaces(s[1..]);
      assert s[..1 + n] == [s[0]] + s[1..][..n];
      1 + n
    else 0
  }

  /** Leading whitespace removed: the longest suffix of `s` that does not
      start with whitespace. */
  function TrimStart(s: string): string {
    s[LeadingSpaces(s)..]
  }

  /** The length of `s` without the whitespace it ends with. */
  function TrailingStart(s: string): (n: nat)
    ensures n <= |s| && Blank(s[n..])
    ensures n > 0 ==> !IsSpace(s[n - 1])
  {
    if s != [] && IsSpace(s[|s| - 1]) then
      var n := TrailingStart(s[..|s| - 1]);
      assert s[..|s| - 1][n..] + [s[|s| - 1]] == s[n..];
      n
    else |s|
  }

  /** Trailing whitespace removed: the longest prefix of `s` that does not
      end with whitespace. */
  function TrimEnd(s: string): string {
    s[..TrailingStart(s)]
  }

  /** JavaScript `s.trim()`. */
  function Trim(s: string): (r: string)
    ensures Trimmed(r)
    ensures r == [] <==> Blank(s)
  {
    var t := TrimStart(s);
    var r := TrimEnd(t);
    assert r == [] ==> Blank(s) by {
      if r == [] {
        assert s == s[..|s| - |t|] + t;
      }
    }
    assert r != [] ==> !Blank(s) by {
      if r != [] {
        assert s[|s| - |t|] == t[0];
      }
    }
    r
  }

  /** Trimming a string twice is the same as trimming it once. */
  lemma TrimIdempotent(s: string)
    ensures Trim(Trim(s)) == Trim(s)
  {
    var r := Trim(s);
    assert TrimStart(r) == r;
    assert TrimEnd(r) == r;
  }

  /** Trimming removes the leading and the trailing whitespace and nothing
      else: the result is the input after its leading whitespace, and all
      that follows the result is whitespace. */
  lemma TrimKeepsInner(s: string)
    ensures var r := Trim(s); var l := LeadingSpaces(s);
      && l + |r| <= |s| && s[l..l + |r|] == r
      && Blank(s[..l]) && Blank(s[l + |r|..])
  {
    var l := LeadingSpaces(s);
    var t := TrimStart(s);
    var r := TrimEnd(t);
    assert t == s[l..];
    assert s[l..l + |r|] == t[..|r|];
    assert s[l + |r|..] == t[|r|..];
  }

  /** JavaScript `s.startsWith(p)`. */
  predicate StartsWith(s: string, p: string) {
    |p| <= |s| && s[..|p|] == p
  }

  /** `t` occurs in `s` at position `i`. */
  predicate OccursAt(s: string, t: string, i: int) {
    0 <= i && i + |t| <= |s| && s[i..i + |t|] == t
  }

  /** JavaScript `s.includes(t)`. */
  predicate Contains(s: string, t: string) {
    exists i :: 0 <= i <= |s| - |t| && OccursAt(s, t, i)
  }

  /** JavaScript `xs.join(sep)`. */
  function Join(xs: seq<string>, sep: string): string {
    if |xs| == 0 then ""
    else if |xs| == 1 then xs[0]
    else xs[0] + sep + Join(xs[1..], sep)
  }

  /** Joining one element gives that element; appending an element appends
      the separator and the element: the parts appear in order. */
  lemma {:induction false} JoinSnoc(xs: seq<string>, x: string, sep: string)
    ensures xs == [] ==> Join(xs + [x], sep) == x
    ensures xs != [] ==> Join(xs + [x], sep) == Join(xs, sep) + sep + x
  {
    if |xs| >= 2 {
      assert (xs + [x])[1..] == xs[1..] + [x];
      JoinSnoc(xs[1..], x, sep);
    } else if |xs| == 1 {
      assert xs + [x] == [xs[0], x];
      assert [xs[0], x][1..] == [x];
    }
  }

  /** `xs.join(sep)` is empty exactly for `[]` and `[""]` when the separator
      is not empty. */
  lemma {:induction false} JoinEmptyIff(xs: seq<string>, sep: string)
    requires sep != ""
    ensures Join(xs, sep) == "" <==> (xs == [] || xs == [""])
  {
    if |xs| >= 2 {
      assert |Join(xs, sep)| >= |sep|;
    }
  }

  /** Index of the first whitespace character of `s`, or `|s|` if none. */
  function FirstSpace(s: string): (i: nat)
    ensures i <= |s| && NoSpace(s[..i])
    ensures i < |s| ==> IsSpace(s[i])
  {
    if s == [] || IsSpace(s[0]) then 0
    else
      var i := 1 + FirstSpace(s[1..]);
      assert s[..i] == [s[0]] + s[1..][..i - 1];
      i
  }

  /** JavaScript `s.split(/\s+/)`: the pieces between maximal runs of
      whitespace. Leading or trailing whitespace yields an empty first or last
      piece, and the empty string yields `[""]`. */
  function Split(s: string): (parts: seq<string>)
    ensures |parts| >= 1
    ensures forall k :: 0 <= k < |parts| ==> NoSpace(parts[k])
    ensures parts[0] == s[..FirstSpace(s)]
    decreases |s|
  {
    var i := FirstSpace(s);
    if i == |s| then [s]
    else [s[..i]] + Split(TrimStart(s[i..]))
  }

  /** The characters of `s` that are not whitespace, in order. */
  function DropSpaces(s: string): (r: string)
    ensures |r| <= |s|
  {
    if s == [] then []
    else if IsSpace(s[0]) then DropSpaces(s[1..])
    else [s[0]] + DropSpaces(s[1..])
  }

  lemma {:induction false} DropSpacesAppend(a: string, b: string)
    ensures DropSpaces(a + b) == DropSpaces(a) + DropSpaces(b)
  {
    if a != [] {
      assert (a + b)[1..] == a[1..] + b;
      DropSpacesAppend(a[1..], b);
    } else {
      assert a + b == b;
    }
  }

  lemma {:induction false} DropSpacesOfNoSpace(s: string)
    requires NoSpace(s)
    ensures DropSpaces(s) == s
  {
    if s != [] {
      DropSpacesOfNoSpace(s[1..]);
    }
  }

  lemma {:induction false} DropSpacesOfBlank(s: string)
    requires Blank(s)
    ensures DropSpaces(s) == []
  {
    if s != [] {
      DropSpacesOfBlank(s[1..]);
    }
  }

  /** Concatenation of a sequence of strings. */
  function Concat(xs: seq<string>): string {
    if xs == [] then "" else xs[0] + Concat(xs[1..])
  }

  /** A string that starts one of the pieces occurs in their concatenation. */
  lemma {:induction false} LineOccurs(lines: seq<string>, k: nat, t: string)
    requires k < |lines| && StartsWith(lines[k], t)
    ensures Contains(Concat(lines), t)
  {
    var s := Concat(lines);
    if k == 0 {
      assert s[..|t|] == lines[0][..|t|];
      assert OccursAt(s, t, 0);
    } else {
      LineOccurs(lines[1..], k - 1, t);
      var rest := Concat(lines[1..]);
      var i :| 0 <= i <= |rest| - |t| && OccursAt(rest, t, i);
      assert s == lines[0] + rest;
      assert s[|lines[0]| + i..|lines[0]| + i + |t|] == rest[i..i + |t|];
      assert OccursAt(s, t, |lines[0]| + i);
    }
  }

  /** The pieces of `split(/\s+/)` hold exactly the non-whitespace characters
      of the input, in their original order. */
  lemma {:induction false} SplitKeepsText(s: string)
    ensures Concat(Split(s)) == DropSpaces(s)
    decreases |s|
  {
    var i := FirstSpace(s);
    if i == |s| {
      assert s[..i] == s;
      DropSpacesOfNoSpace(s);
      assert Concat([s]) == s + Concat([]);
    } else {
      var t := s[i..];
      var rest := TrimStart(t);
      var a, b := s[..i], t[..|t| - |rest|];
      assert Concat(Split(s)) == a + Concat(Split(rest)) by {
        assert Split(s) == [a] + Split(rest);
        assert ([a] + Split(rest))[1..] == Split(rest);
      }
      SplitKeepsText(rest);
      assert DropSpaces(s) == a + DropSpaces(rest) by {
        assert s == a + (b + rest);
        SplitDropStep(a, b, rest);
      }
    }
  }

  /** One step of SplitKeepsText: a piece without whitespace, then a
      whitespace run, then the rest. */
  lemma SplitDropStep(a: string, b: string, rest: string)
    requires NoSpace(a) && Blank(b)
    ensures DropSpaces(a + (b + rest)) == a + DropSpaces(rest)
  {
    var d := DropSpaces(rest);
    DropSpacesAppend(b, rest);
    DropSpacesOfBlank(b);
    assert DropSpaces(b + rest) == d by {
      assert [] + d == d;
    }
    DropSpacesAppend(a, b + rest);
    DropSpacesOfNoSpace(a);
  }

  /** Trimming removes only whitespace. */
  lemma DropSpacesOfTrim(s: string)
    ensures DropSpaces(Trim(s)) == DropSpaces(s)
  {
    var t := TrimStart(s);
    var r := TrimEnd(t);
    var a, b := s[..|s| - |t|], t[|r|..];
    assert s == a + (r + b);
    DropSpacesAround(a, r, b);
  }

  lemma DropSpacesAround(a: string, m: string, b: string)
    requires Blank(a) && Blank(b)
    ensures DropSpaces(a + (m + b)) == DropSpaces(m)
  {
    DropSpacesAppend(a, m + b);
    DropSpacesAppend(m, b);
    DropSpacesOfBlank(a);
    DropSpacesOfBlank(b);
  }

  /** Splitting a non-empty string without leading or trailing whitespace
      yields only non-empty pieces. */
  lemma {:induction false} SplitTrimmedNonEmpty(s: string)
    requires s != [] && Trimmed(s)
    ensures forall k :: 0 <= k < |Split(s)| ==> Split(s)[k] != []
    decreases |s|
  {
    var i := FirstSpace(s);
    if i < |s| {
      assert i > 0;
      var t := s[i..];
      var rest := TrimStart(t);
      assert t[|t| - 1] == s[|s| - 1];
      assert !Blank(t) by { assert !IsSpace(t[|t| - 1]); }
      assert t[..|t| - 0] == t;
      assert rest != [];
      assert rest[|rest| - 1] == t[|t| - 1];
      SplitTrimmedNonEmpty(rest);
      var parts := Split(s);
      assert parts == [s[..i]] + Split(rest);
      forall k | 0 <= k < |parts| ensures parts[k] != [] {
        if k > 0 {
          assert parts[k] == Split(rest)[k - 1];
        }
      }
    }
  }

  /** `s` with every maximal run of whitespace replaced by one space: a
      whitespace character followed by another is dropped, and the last one
      of a run becomes a space. */
  function Collapse(s: string): string {
    if s == [] then []
    else if !IsSpace(s[0]) then [s[0]] + Collapse(s[1..])
    else if |s| > 1 && IsSpace(s[1]) then Collapse(s[1..])
    else " " + Collapse(s[1..])
  }

  lemma {:induction false} CollapseRun(b: string, rest: string)
    requires b != [] && Blank(b) && (rest == [] || !IsSpace(rest[0]))
    ensures Collapse(b + rest) == " " + Collapse(rest)
  {
    assert (b + rest)[1..] == b[1..] + rest;
    if |b| > 1 {
      CollapseRun(b[1..], rest);
    }
  }

  lemma {:induction false} CollapseWord(a: string, rest: string)
    requires NoSpace(a)
    ensures Collapse(a + rest) == a + Collapse(rest)
  {
    if a == [] {
      assert a + rest == rest;
    } else {
      assert (a + rest)[1..] == a[1..] + rest;
      CollapseWord(a[1..], rest);
    }
  }

  /** The pieces of `split(/\s+/)`, joined with single spaces, give the
      input with each whitespace run collapsed to one space. As no piece
      holds whitespace, the pieces are exactly the words of the input
      between its whitespace runs, in order. */
  lemma {:induction false} SplitJoin(s: string)
    ensures Join(Split(s), " ") == Collapse(s)
    decreases |s|
  {
    var i := FirstSpace(s);
    if i == |s| {
      assert s[..i] == s && s + [] == s;
      CollapseWord(s, []);
    } else {
      var r := TrimStart(s[i..]);
      CollapseAtSpace(s);
      SplitJoin(r);
      assert Split(s) == [s[..i]] + Split(r);
      JoinCons(s[..i], Split(r), " ");
    }
  }

  /** Collapsing a text with a whitespace keeps the first word, one space, and collapses the rest. */
  lemma CollapseAtSpace(s: string)
    requires FirstSpace(s) < |s|
    ensures var i := FirstSpace(s);
      Collapse(s) == s[..i] + " " + Collapse(TrimStart(s[i..]))
  {
    var i := FirstSpace(s);
    var tail := s[i..];
    var n := LeadingSpaces(tail);
    assert IsSpace(tail[0]);
    assert n >= 1;
    assert Blank(tail[..n]) && NoSpace(s[..i]);
    assert tail[n..] == [] || !IsSpace(tail[n..][0]);
    SliceThree(s, i, n);
    CollapseWordRun(s[..i], tail[..n], tail[n..]);
    assert TrimStart(s[i..]) == tail[n..];
  }

  lemma SliceThree(s: string, i: nat, n: nat)
    requires i + n <= |s|
    ensures s == s[..i] + (s[i..][..n] + s[i..][n..])
  {
    assert s[i..] == s[i..][..n] + s[i..][n..];
    assert s == s[..i] + s[i..];
  }

  lemma CollapseWordRun(a: string, b: string, rest: string)
    requires NoSpace(a) && b != [] && Blank(b) && (rest == [] || !IsSpace(rest[0]))
    ensures Collapse(a + (b + rest)) == a + " " + Collapse(rest)
  {
    CollapseRun(b, rest);
    CollapseWord(a, b + rest);
  }

  lemma JoinCons(x: string, xs: seq<string>, sep: string)
    requires xs != []
    ensures Join([x] + xs, sep) == x + sep + Join(xs, sep)
  {
    assert ([x] + xs)[1..] == xs;
  }

  /** ASCII `toLowerCase` of one character. */
  function LowerChar(c: char): char {
    if 'A' <= c <= 'Z' then (c as int - 'A' as int + 'a' as int) as char else c
  }

  /** JavaScript `s.toLowerCase()`, for ASCII letters. */
  function ToLower(s: string): (r: string)
    ensures |r| == |s|
    ensures forall i :: 0 <= i < |s| ==> r[i] == LowerChar(s[i])
  {
    if s == [] then [] else [LowerChar(s[0])] + ToLower(s[1..])
  }

  /** Lower-casing keeps whitespace where it was: a token without whitespace
      stays without, and a non-empty one stays non-empty. */
  lemma ToLowerKeepsNoSpace(s: string)
    requires NoSpace(s)
    ensures NoSpace(ToLower(s)) && (ToLower(s) == [] <==> s == [])
  {
    forall i | 0 <= i < |s| ensures !IsSpace(ToLower(s)[i]) {
      assert !IsSpace(s[i]);
    }
  }

  /** JavaScript `s.lastIndexOf(c)` for a single character, `-1` when absent. */
  function LastIndexOf(s: string, c: char): (r: int)
    ensures -1 <= r < |s|
    ensures r >= 0 ==> s[r] == c
    ensures forall k :: r < k < |s| ==> s[k] != c
  {
    if s == [] then -1
    else if s[|s| - 1] == c then |s| - 1
    else LastIndexOf(s[..|s| - 1], c)
  }
}
