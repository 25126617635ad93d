/** Splitting, joining and trimming of strings, as the Python and JavaScript string libraries do them. */
module Text {

  lemma Associative<T>(a: seq<T>, b: seq<T>, c: seq<T>)
    ensures a + (b + c) == a + b + c
  {}

  function Join(parts: seq<string>, separator: string): string {
    if |parts| == 0 then ""
    else if |parts| == 1 then parts[0]
    else parts[0] + separator + Join(parts[1..], separator)
  }

  function Concat(parts: seq<string>): string {
    if |parts| == 0 then "" else parts[0] + Concat(parts[1..])
  }

  lemma {:induction false} ConcatSnoc(parts: seq<string>, last: string)
    ensures Concat(parts + [last]) == Concat(parts) + last
  {
    if parts == [] {
      assert parts + [last] == [last];
    } else {
      ConcatSnoc(parts[1..], last);
      assert (parts + [last])[1..] == parts[1..] + [last];
    }
  }

  lemma {:induction false} JoinIsConcat(parts: seq<string>)
    ensures Join(parts, "") == Concat(parts)
  {
    if parts != [] {
      JoinIsConcat(parts[1..]);
      assert parts[0] + "" + Concat(parts[1..]) == parts[0] + Concat(parts[1..]);
      if |parts| == 1 { assert Concat(parts[1..]) == "" && parts[0] + "" == parts[0]; }
    }
  }

  /** All pieces between occurrences of `delimiter`; never empty. */
  function Split(s: string, delimiter: char): (pieces: seq<string>)
    ensures |pieces| >= 1
  {
    if s == "" then [""]
    else
      var rest := Split(s[1..], delimiter);
      if s[0] == delimiter then [""] + rest else [[s[0]] + rest[0]] + rest[1..]
  }

  /** Split is characterised by its inverse: the pieces rejoin to the text and hold no delimiter. */
  lemma {:induction false} SplitMeaning(s: string, d: char)
    ensures Join(Split(s, d), [d]) == s
    ensures forall piece :: piece in Split(s, d) ==> d !in piece
  {
    if s != "" {
      SplitMeaning(s[1..], d);
      var rest := Split(s[1..], d);
      var all := Split(s, d);
      if s[0] == d {
        assert all[1..] == rest;
        assert Join(all, [d]) == "" + [d] + Join(rest, [d]);
      } else {
        assert all[1..] == rest[1..];
        if |rest| > 1 {
          assert Join(all, [d]) == [s[0]] + (rest[0] + [d] + Join(rest[1..], [d]));
        }
      }
      assert s == [s[0]] + s[1..];
    }
  }

  /** Piece lists of adjacent texts: the last piece of the one runs into the first of the other. */
  function Glue(x: seq<string>, y: seq<string>): seq<string>
    requires |x| >= 1 && |y| >= 1
  {
    x[..|x| - 1] + [x[|x| - 1] + y[0]] + y[1..]
  }

  /** Splitting a concatenation only disturbs the piece the two texts share. */
  lemma {:induction false} SplitAppend(a: string, b: string, d: char)
    ensures Split(a + b, d) == Glue(Split(a, d), Split(b, d))
  {
    if a == "" {
      assert a + b == b;
      GlueNothing(Split(b, d));
    } else {
      SplitAppend(a[1..], b, d);
      assert (a + b)[0] == a[0] && (a + b)[1..] == a[1..] + b;
      GlueFirst(a[0], Split(a[1..], d), Split(b, d));
    }
  }

  lemma GlueNothing(y: seq<string>)
    requires |y| >= 1
    ensures Glue([""], y) == y
  {
    assert "" + y[0] == y[0];
  }

  lemma GlueFirst(c: char, x: seq<string>, y: seq<string>)
    requires |x| >= 1 && |y| >= 1
    ensures Glue([""] + x, y) == [""] + Glue(x, y)
    ensures Glue([[c] + x[0]] + x[1..], y) == [[c] + Glue(x, y)[0]] + Glue(x, y)[1..]
  {
    var x' := [[c] + x[0]] + x[1..];
    if |x| == 1 {
      assert [c] + (x[0] + y[0]) == [c] + x[0] + y[0];
    } else {
      assert Glue(x, y)[0] == x[0];
    }
  }

  lemma GlueAtDelimiter(x: seq<string>, y: seq<string>)
    requires |x| >= 1
    ensures Glue(x, [""] + y) == x + y
  {
    var n := |x|;
    assert x[n - 1] + "" == x[n - 1];
    assert x == x[..n - 1] + [x[n - 1]] && ([""] + y)[1..] == y;
  }

  lemma {:induction false} SplitAtDelimiter(b: string, d: char)
    ensures Split([d] + b, d) == [""] + Split(b, d)
  {
    assert ([d] + b)[1..] == b;
  }

  /** A delimiter between two texts separates their pieces completely. */
  lemma {:induction false} SplitAround(a: string, b: string, d: char)
    ensures Split(a + [d] + b, d) == Split(a, d) + Split(b, d)
  {
    assert a + [d] + b == a + ([d] + b);
    SplitAppend(a, [d] + b, d);
    SplitAtDelimiter(b, d);
    GlueAtDelimiter(Split(a, d), Split(b, d));
  }

  lemma {:induction false} SplitWithout(s: string, d: char)
    requires d !in s
    ensures Split(s, d) == [s]
  {
    if s != "" {
      SplitWithout(s[1..], d);
      assert [s[0]] + s[1..] == s;
    }
  }

  // ---- trimming -------------------------------------------------------------------------

  function TrimLeft(s: string, space: char -> bool): string {
    if s != "" && space(s[0]) then TrimLeft(s[1..], space) else s
  }

  function TrimRight(s: string, space: char -> bool): string {
    if s != "" && space(s[|s| - 1]) then TrimRight(s[..|s| - 1], space) else s
  }

  function Trim(s: string, space: char -> bool): string {
    TrimRight(TrimLeft(s, space), space)
  }

  ghost predicate Trimmed(s: string, space: char -> bool) {
    s != "" ==> !space(s[0]) && !space(s[|s| - 1])
  }

  lemma {:induction false} TrimLeftClean(s: string, space: char -> bool)
    ensures var t := TrimLeft(s, space); t != "" ==> !space(t[0])
  {
    if s != "" && space(s[0]) { TrimLeftClean(s[1..], space); }
  }

  lemma {:induction false} TrimRightClean(s: string, space: char -> bool)
    ensures var t := TrimRight(s, space); t <= s && (t != "" ==> !space(t[|t| - 1]))
  {
    if s != "" && space(s[|s| - 1]) { TrimRightClean(s[..|s| - 1], space); }
  }

  /** A trim result has no outer space, and a text is its own trim exactly when it has none. */
  lemma TrimMeaning(s: string, space: char -> bool)
    ensures Trimmed(Trim(s, space), space)
    ensures Trim(s, space) == s <==> Trimmed(s, space)
  {
    TrimLeftClean(s, space);
    TrimRightClean(TrimLeft(s, space), space);
  }

  lemma {:induction false} TrimLeftPadded(pre: string, s: string, space: char -> bool)
    requires (forall c :: c in pre ==> space(c)) && s != "" && !space(s[0])
    ensures TrimLeft(pre + s, space) == s
  {
    if pre == "" {
      assert pre + s == s;
    } else {
      TrimLeftPadded(pre[1..], s, space);
      assert (pre + s)[1..] == pre[1..] + s && (pre + s)[0] == pre[0];
    }
  }

  lemma {:induction false} TrimRightPadded(s: string, post: string, space: char -> bool)
    requires (forall c :: c in post ==> space(c)) && s != "" && !space(s[|s| - 1])
    ensures TrimRight(s + post, space) == s
  {
    if post == "" {
      assert s + post == s;
    } else {
      TrimRightPadded(s, post[..|post| - 1], space);
      assert (s + post)[..|s + post| - 1] == s + post[..|post| - 1];
      assert (s + post)[|s + post| - 1] == post[|post| - 1];
    }
  }

  lemma {:induction false} TrimBlank(s: string, space: char -> bool)
    requires forall c :: c in s ==> space(c)
    ensures TrimLeft(s, space) == ""
  {
    if s != "" { TrimBlank(s[1..], space); }
  }

  lemma TrimPadded(pre: string, s: string, post: string, space: char -> bool)
    requires (forall c :: c in pre ==> space(c)) && forall c :: c in post ==> space(c)
    requires Trimmed(s, space)
    ensures Trim(pre + s + post, space) == s
  {
    if s == "" {
      TrimBlank(pre + s + post, space);
    } else {
      assert pre + s + post == pre + (s + post) && (s + post)[0] == s[0];
      TrimLeftPadded(pre, s + post, space);
      TrimRightPadded(s, post, space);
    }
  }

  /** A text with nothing but space around a part of it. */
  ghost predicate Surrounded(s: string, t: string, space: char -> bool) {
    exists pre, post {:trigger pre + t + post} ::
      s == pre + t + post && (forall c :: c in pre ==> space(c)) && forall c :: c in post ==> space(c)
  }

  lemma {:induction false} TrimLeftShape(s: string, space: char -> bool) returns (pre: string)
    ensures s == pre + TrimLeft(s, space) && forall c :: c in pre ==> space(c)
  {
    pre := "";
    if s != "" && space(s[0]) {
      var more := TrimLeftShape(s[1..], space);
      pre := [s[0]] + more;
      assert s == [s[0]] + s[1..] == [s[0]] + (more + TrimLeft(s[1..], space));
    }
  }

  lemma {:induction false} TrimRightShape(s: string, space: char -> bool) returns (post: string)
    ensures s == TrimRight(s, space) + post && forall c :: c in post ==> space(c)
  {
    post := "";
    if s != "" && space(s[|s| - 1]) {
      var more := TrimRightShape(s[..|s| - 1], space);
      post := more + [s[|s| - 1]];
      assert s == s[..|s| - 1] + [s[|s| - 1]] == TrimRight(s[..|s| - 1], space) + more + [s[|s| - 1]];
    }
  }

  /** Trimming takes off the space around a text and nothing else. */
  lemma TrimIsExact(s: string, t: string, space: char -> bool)
    ensures t == Trim(s, space) <==> Trimmed(t, space) && Surrounded(s, t, space)
  {
    var left := TrimLeft(s, space);
    var pre := TrimLeftShape(s, space);
    var post := TrimRightShape(left, space);
    TrimMeaning(s, space);
    assert s == pre + Trim(s, space) + post;
    if Trimmed(t, space) && Surrounded(s, t, space) {
      var before, after :| s == before + t + after && (forall c :: c in before ==> space(c))
                           && forall c :: c in after ==> space(c);
      TrimPadded(before, t, after, space);
    }
  }

  /** Nothing is left exactly of a text that is all space. */
  lemma TrimIsBlank(s: string, space: char -> bool)
    ensures Trim(s, space) == "" <==> forall c :: c in s ==> space(c)
  {
    var pre := TrimLeftShape(s, space);
    var post := TrimRightShape(TrimLeft(s, space), space);
    if Trim(s, space) == "" {
      assert s == pre + post;
    } else if forall c :: c in s ==> space(c) {
      TrimBlank(s, space);
      assert false;
    }
  }

  /** Characters removed by Python's str.strip(). */
  predicate PythonSpace(c: char) {
    || '\U{0009}' <= c <= '\U{000D}' || '\U{001C}' <= c <= '\U{0020}'
    || c in {'\U{0085}', '\U{00A0}', '\U{1680}', '\U{2028}', '\U{2029}', '\U{202F}', '\U{205F}', '\U{3000}'}
    || '\U{2000}' <= c <= '\U{200A}'
  }

  /** Characters removed by JavaScript's String.prototype.trim(). */
  predicate JavaScriptSpace(c: char) {
    || '\U{0009}' <= c <= '\U{000D}'
    || c in {'\U{0020}', '\U{00A0}', '\U{1680}', '\U{2028}', '\U{2029}', '\U{202F}', '\U{205F}', '\U{3000}', '\U{FEFF}'}
    || '\U{2000}' <= c <= '\U{200A}'
  }
}
