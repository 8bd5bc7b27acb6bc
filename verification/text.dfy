/** The two string operations `formatStipend` chains:
    `replace(/\s+/g, " ")` and `replace("/month", "")`. */
module JsText {
  import opened Js

  /** The characters the regular-expression class `\s` matches in
      ECMAScript: the WhiteSpace and LineTerminator code points (tab, line
      feed, vertical tab, form feed, carriage return, space, no-break space,
      the byte order mark and the other Unicode space separators, and the
      line and paragraph separators). */
  predicate IsSpace(c: char) {
    || c == ' ' || c == '\t' || c == '\n' || c == '\r'
    || c == '\U{000B}' || c == '\U{000C}' || c == '\U{00A0}' || c == '\U{1680}'
    || ('\U{2000}' <= c <= '\U{200A}')
    || c == '\U{2028}' || c == '\U{2029}' || c == '\U{202F}' || c == '\U{205F}'
    || c == '\U{3000}' || c == '\U{FEFF}'
  }

  /** The characters of `s` that are not whitespace, in order. */
  function Visible(s: seq<char>): seq<char> {
    if s == [] then []
    else if IsSpace(s[0]) then Visible(s[1..])
    else [s[0]] + Visible(s[1..])
  }

  /** Whitespace in `s` is only ever a single plain space: no whitespace
      character other than ' ', and never two whitespace characters side by
      side. */
  predicate Collapsed(s: seq<char>) {
    && (forall i :: 0 <= i < |s| && IsSpace(s[i]) ==> s[i] == ' ')
    && (forall i :: 0 <= i < |s| - 1 ==> !(IsSpace(s[i]) && IsSpace(s[i + 1])))
  }

  predicate AllSpace(s: seq<char>) {
    forall i :: 0 <= i < |s| ==> IsSpace(s[i])
  }

  /** Drops the whitespace run at the front of `s`. */
  function SkipSpaces(s: seq<char>): (r: seq<char>)
    ensures |r| <= |s|
    ensures r == s[|s| - |r|..]
    ensures AllSpace(s[..|s| - |r|])
    ensures r == [] || !IsSpace(r[0])
    ensures Visible(r) == Visible(s)
  {
    if s == [] || !IsSpace(s[0]) then s
    else
      var r := SkipSpaces(s[1..]);
      assert s[..|s| - |r|] == [s[0]] + s[1..][..|s| - 1 - |r|];
      r
  }

  /** `replace(/\s+/g, " ")`: every maximal run of whitespace becomes one
      space. The result is collapsed, keeps every non-whitespace character in
      order, starts with whitespace exactly when the input does, and is never
      longer than the input. */
  function CollapseWhitespace(s: seq<char>): (r: seq<char>)
    ensures Collapsed(r)
    ensures Visible(r) == Visible(s)
    ensures |r| <= |s|
    ensures |r| == 0 <==> |s| == 0
    ensures |s| > 0 ==> (IsSpace(r[0]) <==> IsSpace(s[0]))
    decreases |s|
  {
    if s == [] then []
    else if IsSpace(s[0]) then
      var rest := SkipSpaces(s[1..]);
      var r := [' '] + CollapseWhitespace(rest);
      assert r[1..] == CollapseWhitespace(rest);
      r
    else
      var r := [s[0]] + CollapseWhitespace(s[1..]);
      assert r[1..] == CollapseWhitespace(s[1..]);
      r
  }

  /** A collapsed string is left as it is. */
  lemma {:induction false} CollapseKeepsCollapsed(s: seq<char>)
    requires Collapsed(s)
    ensures CollapseWhitespace(s) == s
    decreases |s|
  {
    if s != [] {
      assert Collapsed(s[1..]);
      if IsSpace(s[0]) {
        assert s[1..] == [] || !IsSpace(s[1..][0]);
        assert SkipSpaces(s[1..]) == s[1..];
      }
      CollapseKeepsCollapsed(s[1..]);
    }
  }

  /** Text made of plain spaces and printable ASCII, with no two spaces
      side by side, is collapsed already. */
  lemma PlainIsCollapsed(s: seq<char>)
    requires forall i :: 0 <= i < |s| ==> s[i] == ' ' || '!' <= s[i] <= '~'
    requires forall i :: 0 <= i < |s| - 1 ==> !(s[i] == ' ' && s[i + 1] == ' ')
    ensures Collapsed(s)
  {
  }

  /** The collapse is idempotent, and a string is a fixed point of it
      exactly when it is already collapsed. */
  lemma CollapseIdempotent(s: seq<char>)
    ensures CollapseWhitespace(CollapseWhitespace(s)) == CollapseWhitespace(s)
    ensures CollapseWhitespace(s) == s <==> Collapsed(s)
  {
    CollapseKeepsCollapsed(CollapseWhitespace(s));
    if Collapsed(s) {
      CollapseKeepsCollapsed(s);
    }
  }

  /** A non-empty run made only of whitespace collapses to one space. */
  lemma {:induction false} CollapseBlank(s: seq<char>)
    requires |s| > 0 && AllSpace(s)
    ensures CollapseWhitespace(s) == " "
  {
    SkipSpacesAllSpace(s[1..]);
  }

  lemma {:induction false} SkipSpacesAllSpace(s: seq<char>)
    requires AllSpace(s)
    ensures SkipSpaces(s) == []
    decreases |s|
  {
    if s != [] {
      SkipSpacesAllSpace(s[1..]);
    }
  }

  lemma {:induction false} SkipSpacesStops(a: seq<char>, c: char, b: seq<char>)
    requires !IsSpace(c)
    ensures SkipSpaces(a + [c] + b) == SkipSpaces(a) + [c] + b
    decreases |a|
  {
    if a != [] {
      assert (a + [c] + b)[1..] == a[1..] + [c] + b;
      if IsSpace(a[0]) {
        SkipSpacesStops(a[1..], c, b);
      }
    }
  }

  /** The collapse works run by run: a non-whitespace character is a
      boundary no run crosses, so the strings on either side of it collapse
      independently. With `CollapseBlank` and the empty string this
      determines the collapse of every string. */
  lemma {:induction false} CollapseSplitsAtVisible(a: seq<char>, c: char, b: seq<char>)
    requires !IsSpace(c)
    ensures CollapseWhitespace(a + [c] + b) == CollapseWhitespace(a) + [c] + CollapseWhitespace(b)
    decreases |a|
  {
    if a == [] {
      CollapseCons(c, b);
      assert a + [c] + b == [c] + b;
    } else {
      var x, t := a[0], a[1..];
      assert a == [x] + t;
      assert a + [c] + b == [x] + (t + [c] + b);
      CollapseCons(x, t + [c] + b);
      CollapseCons(x, t);
      if IsSpace(x) {
        var rest := SkipSpaces(t);
        SkipSpacesStops(t, c, b);
        CollapseSplitsAtVisible(rest, c, b);
      } else {
        CollapseSplitsAtVisible(t, c, b);
      }
    }
  }

  /** One step of the collapse, on a string split into its head and tail. */
  lemma CollapseCons(x: char, t: seq<char>)
    ensures IsSpace(x) ==> CollapseWhitespace([x] + t) == [' '] + CollapseWhitespace(SkipSpaces(t))
    ensures !IsSpace(x) ==> CollapseWhitespace([x] + t) == [x] + CollapseWhitespace(t)
  {
    assert ([x] + t)[0] == x;
    assert ([x] + t)[1..] == t;
  }

  /** `pattern` occurs in `s` at index `i`. */
  predicate OccursAt(s: seq<char>, pattern: seq<char>, i: int) {
    0 <= i && i + |pattern| <= |s| && s[i..i + |pattern|] == pattern
  }

  /** The first index at or after `from` where `pattern` occurs. */
  function IndexFrom(s: seq<char>, pattern: seq<char>, from: nat): (r: Option<nat>)
    ensures r.Some? ==> from <= r.value && OccursAt(s, pattern, r.value)
    ensures r.Some? ==> forall j :: from <= j < r.value ==> !OccursAt(s, pattern, j)
    ensures r.None? ==> forall j :: from <= j ==> !OccursAt(s, pattern, j)
    decreases |s| - from
  {
    if from + |pattern| > |s| then None
    else if s[from..from + |pattern|] == pattern then Some(from)
    else IndexFrom(s, pattern, from + 1)
  }

  /** `i` is the first index where `pattern` occurs in `s`. */
  predicate FirstAt(s: seq<char>, pattern: seq<char>, i: int) {
    OccursAt(s, pattern, i) && forall j :: 0 <= j < i ==> !OccursAt(s, pattern, j)
  }

  /** `String.prototype.replace` with a string pattern and an empty
      replacement: only the first occurrence of `pattern` is cut out, and a
      string without one comes back unchanged. */
  function RemoveFirst(s: seq<char>, pattern: seq<char>): (r: seq<char>)
    ensures (forall j :: !OccursAt(s, pattern, j)) ==> r == s
    ensures forall i :: FirstAt(s, pattern, i) ==> r == s[..i] + s[i + |pattern|..]
    ensures |r| <= |s|
  {
    match IndexFrom(s, pattern, 0)
    case None => s
    case Some(i) =>
      assert forall k :: FirstAt(s, pattern, k) ==> k == i;
      s[..i] + s[i + |pattern|..]
  }

  /** Cutting out the first occurrence leaves every occurrence that starts
      after it in place, shifted left by the pattern's length. */
  lemma LaterOccurrenceSurvives(s: seq<char>, pattern: seq<char>, i: nat, j: nat)
    requires FirstAt(s, pattern, i)
    requires OccursAt(s, pattern, j) && j >= i + |pattern|
    ensures OccursAt(RemoveFirst(s, pattern), pattern, j - |pattern|)
  {
    CutKeepsOccurrence(s, pattern, i, j);
  }

  lemma CutKeepsOccurrence(s: seq<char>, pattern: seq<char>, i: nat, j: nat)
    requires i + |pattern| <= j && OccursAt(s, pattern, j)
    ensures OccursAt(s[..i] + s[i + |pattern|..], pattern, j - |pattern|)
  {
    var r := s[..i] + s[i + |pattern|..];
    var tail := s[i + |pattern|..];
    assert r[i..] == tail;
    var k := j - |pattern| - i;
    assert tail[k..k + |pattern|] == s[j..j + |pattern|];
    assert r[j - |pattern|..j] == r[i..][k..k + |pattern|];
  }

  /** The result is shorter by the pattern's length exactly when the
      pattern occurred. */
  lemma RemoveFirstLength(s: seq<char>, pattern: seq<char>, i: nat)
    requires OccursAt(s, pattern, i)
    ensures |RemoveFirst(s, pattern)| == |s| - |pattern|
  {
    var first := IndexFrom(s, pattern, 0);
    assert first.Some?;
    assert FirstAt(s, pattern, first.value);
  }
}
