/** Scrubbing secrets out of text and JSON bound for logs. */
module Redaction {
  import opened Vocabulary
  import opened Text

  const REDACTED := "[REDACTED]"

  // ---- the pattern, as a language -------------------------------------------------------

  predicate Alnum(c: char) { 'A' <= c <= 'Z' || 'a' <= c <= 'z' || '0' <= c <= '9' }

  predicate BlobChar(c: char) { Alnum(c) || c == '_' || c == '-' }

  predicate BearerChar(c: char) { BlobChar(c) || c == '.' }

  predicate All(s: string, p: char -> bool) { forall i :: 0 <= i < |s| ==> p(s[i]) }

  predicate KeyShape(w: string) { |w| >= 19 && "sk-" <= w && All(w[3..], Alnum) }

  /** "Bearer", k whitespace characters, then the token. */
  predicate BearerShape(w: string, k: nat) {
    k >= 1 && |w| >= 22 + k && "Bearer" <= w && All(w[6..6 + k], PythonSpace) && All(w[6 + k..], BearerChar)
  }

  predicate BlobShape(w: string) { |w| >= 32 && All(w, BlobChar) }

  /** The words the secret pattern matches in full. */
  ghost predicate Secret(w: string) {
    KeyShape(w) || BlobShape(w) || exists k: nat :: BearerShape(w, k)
  }

  // ---- the same, character by character -------------------------------------------------

  predicate LetterOrDigit(c: char) {
    var n := c as int;
    48 <= n <= 57 || 65 <= n <= 90 || 97 <= n <= 122
  }

  /** "sk-" and at least sixteen letters or digits. */
  ghost predicate KeyWritten(w: string) {
    |w| >= 3 + 16 && w[0] == 's' && w[1] == 'k' && w[2] == '-' && forall i :: 3 <= i < |w| ==> LetterOrDigit(w[i])
  }

  /** "Bearer", whitespace up to k, and at least sixteen letters, digits, dots, underscores or hyphens. */
  ghost predicate BearerWritten(w: string, k: nat) {
    && 7 <= k && k + 16 <= |w|
    && w[0] == 'B' && w[1] == 'e' && w[2] == 'a' && w[3] == 'r' && w[4] == 'e' && w[5] == 'r'
    && (forall i :: 6 <= i < k ==> PythonSpace(w[i]))
    && forall i :: k <= i < |w| ==> LetterOrDigit(w[i]) || w[i] == '.' || w[i] == '_' || w[i] == '-'
  }

  ghost predicate IsBearer(w: string) { exists k: nat :: BearerWritten(w, k) }

  /** At least thirty-two letters, digits, underscores or hyphens. */
  ghost predicate BlobWritten(w: string) {
    |w| >= 32 && forall i :: 0 <= i < |w| ==> LetterOrDigit(w[i]) || w[i] == '_' || w[i] == '-'
  }

  ghost predicate SecretWritten(w: string) { KeyWritten(w) || IsBearer(w) || BlobWritten(w) }

  lemma KeyIsWritten(w: string)
    ensures KeyShape(w) <==> KeyWritten(w)
  {
    if KeyShape(w) {
      assert w[0] == "sk-"[0] && w[1] == "sk-"[1] && w[2] == "sk-"[2];
      forall i | 3 <= i < |w| ensures LetterOrDigit(w[i]) { assert Alnum(w[3..][i - 3]); }
    }
    if KeyWritten(w) { assert w[..3] == "sk-"; }
  }

  lemma BearerIsWritten(w: string, k: nat)
    ensures BearerShape(w, k) <==> BearerWritten(w, 6 + k)
  {
    if BearerShape(w, k) {
      assert forall i :: 0 <= i < 6 ==> w[i] == "Bearer"[i];
      forall i | 6 <= i < 6 + k ensures PythonSpace(w[i]) { assert PythonSpace(w[6..6 + k][i - 6]); }
      forall i | 6 + k <= i < |w| ensures BearerChar(w[i]) { assert BearerChar(w[6 + k..][i - 6 - k]); }
    }
    if BearerWritten(w, 6 + k) { assert w[..6] == "Bearer"; }
  }

  lemma BearersAreWritten(w: string)
    ensures (exists k: nat :: BearerShape(w, k)) <==> IsBearer(w)
  {
    if k: nat :| BearerShape(w, k) { BearerIsWritten(w, k); }
    if k: nat :| BearerWritten(w, k) { BearerIsWritten(w, k - 6); }
  }

  /** The two descriptions of the pattern agree on every word. */
  lemma SecretIsWritten(w: string)
    ensures Secret(w) <==> SecretWritten(w)
    ensures BlobShape(w) <==> BlobWritten(w)
  {
    KeyIsWritten(w);
    BearersAreWritten(w);
  }

  // ---- the matcher ----------------------------------------------------------------------

  /** Length of the longest prefix of such characters. */
  function RunLength(s: string, p: char -> bool): (n: nat)
    ensures n <= |s| && All(s[..n], p)
    ensures n < |s| ==> !p(s[n])
  {
    if |s| > 0 && p(s[0]) then
      var n := 1 + RunLength(s[1..], p);
      assert forall i :: 1 <= i < n ==> s[i] == s[1..][i - 1];
      n
    else 0
  }

  function KeyEnd(s: string): nat {
    if "sk-" <= s then 3 + RunLength(s[3..], Alnum) else 0
  }

  function BearerEnd(s: string): nat {
    if "Bearer" <= s then
      var k := RunLength(s[6..], PythonSpace);
      var n := RunLength(s[6 + k..], BearerChar);
      if k >= 1 && n >= 16 then 6 + k + n else 0
    else 0
  }

  /** End of the match at the start of s: alternatives in order, repetitions greedy. */
  function MatchEnd(s: string): (end: Option<nat>)
    ensures end.Some? ==> 1 <= end.value <= |s|
  {
    if KeyEnd(s) >= 19 then Some(KeyEnd(s))
    else if BearerEnd(s) > 0 then Some(BearerEnd(s))
    else if RunLength(s, BlobChar) >= 32 then Some(RunLength(s, BlobChar))
    else None
  }

  /** Replace the matches, leftmost first and without overlap. */
  function ScrubText(s: string): string
    decreases |s|
  {
    if s == "" then ""
    else
      match MatchEnd(s)
      case Some(end) => REDACTED + ScrubText(s[end..])
      case None => [s[0]] + ScrubText(s[1..])
  }

  lemma AllAt(s: string, n: nat, p: char -> bool)
    requires n <= |s| && All(s[..n], p)
    ensures forall i :: 0 <= i < n ==> p(s[i])
  {
    forall i | 0 <= i < n ensures p(s[i]) { assert p(s[..n][i]); }
  }

  lemma {:induction false} RunCovers(s: string, n: nat, p: char -> bool)
    requires n <= |s| && All(s[..n], p)
    ensures n <= RunLength(s, p)
  {
    AllAt(s, n, p);
  }

  lemma MatchIsSecret(s: string)
    requires MatchEnd(s).Some?
    ensures Secret(s[..MatchEnd(s).value])
  {
    var w := s[..MatchEnd(s).value];
    if KeyEnd(s) >= 19 {
      assert w[3..] == s[3..][..RunLength(s[3..], Alnum)];
      assert KeyShape(w);
    } else if BearerEnd(s) > 0 {
      var k := RunLength(s[6..], PythonSpace);
      assert w[6..6 + k] == s[6..][..k];
      assert w[6 + k..] == s[6 + k..][..RunLength(s[6 + k..], BearerChar)];
      assert BearerShape(w, k);
    } else {
      assert BlobShape(w);
    }
  }

  lemma SecretPrefixMatches(s: string, e: nat)
    requires e <= |s| && Secret(s[..e])
    ensures MatchEnd(s).Some?
  {
    var w := s[..e];
    if KeyShape(w) {
      assert s[3..][..e - 3] == w[3..];
      RunCovers(s[3..], e - 3, Alnum);
    } else if BlobShape(w) {
      RunCovers(s, e, BlobChar);
    } else {
      var k: nat :| BearerShape(w, k);
      BearerMatches(s, e, k);
    }
  }

  lemma BearerMatches(s: string, e: nat, k: nat)
    requires e <= |s| && BearerShape(s[..e], k)
    ensures 0 < e <= BearerEnd(s)
  {
    var w := s[..e];
    assert s[6..][..k] == w[6..6 + k];
    RunCovers(s[6..], k, PythonSpace);
    assert BearerChar(w[6 + k..][0]) && s[6..][k] == w[6 + k..][0];
    AllAt(s[6..], RunLength(s[6..], PythonSpace), PythonSpace);
    assert RunLength(s[6..], PythonSpace) == k;
    assert s[6 + k..][..e - 6 - k] == w[6 + k..];
    RunCovers(s[6 + k..], e - 6 - k, BearerChar);
  }

  // ---- scrubbed text is clean -----------------------------------------------------------

  /** No substring matches the pattern. */
  ghost predicate Clean(s: string) {
    forall i, j :: 0 <= i <= j <= |s| ==> !SecretWritten(s[i..j])
  }

  ghost predicate NoMatch(s: string) {
    forall i :: 0 <= i <= |s| ==> MatchEnd(s[i..]).None?
  }

  lemma SecretGivesMatch(s: string, i: nat, j: nat)
    requires i <= j <= |s| && Secret(s[i..j])
    ensures !NoMatch(s)
  {
    assert s[i..j] == s[i..][..j - i];
    SecretPrefixMatches(s[i..], j - i);
  }

  lemma MatchGivesSecret(s: string, i: nat)
    requires i <= |s| && MatchEnd(s[i..]).Some?
    ensures !Clean(s)
  {
    var e := MatchEnd(s[i..]).value;
    MatchIsSecret(s[i..]);
    assert s[i..][..e] == s[i..i + e];
    SecretIsWritten(s[i..i + e]);
  }

  lemma NoMatchIsClean(s: string)
    ensures NoMatch(s) <==> Clean(s)
  {
    if !Clean(s) {
      var i, j :| 0 <= i <= j <= |s| && SecretWritten(s[i..j]);
      SecretIsWritten(s[i..j]);
      SecretGivesMatch(s, i, j);
    }
    if !NoMatch(s) {
      var i :| 0 <= i <= |s| && MatchEnd(s[i..]).Some?;
      MatchGivesSecret(s, i);
    }
  }

  lemma SecretsHaveNoBracket(w: string, i: nat)
    requires Secret(w) && i < |w|
    ensures w[i] != '[' && w[i] != ']'
  {
    if KeyShape(w) {
      if i >= 3 { assert Alnum(w[3..][i - 3]); } else { assert w[i] == "sk-"[i]; }
    } else if BlobShape(w) {
      assert BlobChar(w[i]);
    } else {
      var k: nat :| BearerShape(w, k);
      if i < 6 {
        assert w[i] == "Bearer"[i];
      } else if i < 6 + k {
        assert PythonSpace(w[6..6 + k][i - 6]);
      } else {
        assert BearerChar(w[6 + k..][i - 6 - k]);
      }
    }
  }

  lemma SecretsAreLong(w: string)
    requires Secret(w)
    ensures |w| >= 19
  {}

  lemma CopyOneMore(u: string, t: string, q: nat)
    requires u != "" && q <= |t| && q <= |u| - 1 && t[..q] == u[1..][..q]
    ensures ([u[0]] + t)[..q + 1] == u[..q + 1]
    ensures q < |t| ==> ([u[0]] + t)[q + 1] == t[q]
  {
    assert ([u[0]] + t)[..q + 1] == [u[0]] + t[..q];
    assert u[..q + 1] == [u[0]] + u[1..][..q];
  }

  /** Up to the first replacement, scrubbing copies. */
  lemma {:induction false} CopiesUpToBracket(u: string) returns (p: nat)
    ensures p <= |u| && p <= |ScrubText(u)| && ScrubText(u)[..p] == u[..p]
    ensures p == |u| == |ScrubText(u)| || (p < |ScrubText(u)| && ScrubText(u)[p] == '[')
    decreases |u|
  {
    if u == "" || MatchEnd(u).Some? {
      p := 0;
    } else {
      var rest := u[1..];
      var q := CopiesUpToBracket(rest);
      p := q + 1;
      CopyOneMore(u, ScrubText(rest), q);
      assert ScrubText(u) == [u[0]] + ScrubText(rest);
    }
  }

  /** No secret starts inside a replacement: the bracket that closes it comes too soon. */
  lemma NoMatchFromReplacement(t: string, i: nat)
    requires i < |REDACTED|
    ensures MatchEnd((REDACTED + t)[i..]).None?
  {
    var s := (REDACTED + t)[i..];
    if MatchEnd(s).Some? {
      var w := s[..MatchEnd(s).value];
      MatchIsSecret(s);
      SecretsAreLong(w);
      assert w[9 - i] == (REDACTED + t)[9] == ']';
      SecretsHaveNoBracket(w, 9 - i);
    }
  }

  lemma {:induction false} ScrubbedNoMatch(s: string)
    ensures NoMatch(ScrubText(s))
    decreases |s|
  {
    var out := ScrubText(s);
    if s == "" {
    } else if MatchEnd(s).Some? {
      var t := ScrubText(s[MatchEnd(s).value..]);
      ScrubbedNoMatch(s[MatchEnd(s).value..]);
      forall i | 0 <= i <= |out| ensures MatchEnd(out[i..]).None? {
        if i < |REDACTED| { NoMatchFromReplacement(t, i); } else { assert out[i..] == t[i - |REDACTED|..]; }
      }
    } else {
      var t := ScrubText(s[1..]);
      ScrubbedNoMatch(s[1..]);
      CopiedStartNoMatch(s);
      forall i | 0 <= i <= |out| ensures MatchEnd(out[i..]).None? {
        if i == 0 { assert out[0..] == out; } else { assert out[i..] == t[i - 1..]; }
      }
    }
  }

  lemma {:induction false} CopiedStartNoMatch(s: string)
    requires s != "" && MatchEnd(s).None?
    ensures MatchEnd(ScrubText(s)).None?
  {
    var out := ScrubText(s);
    if MatchEnd(out).Some? {
      var e := MatchEnd(out).value;
      MatchIsSecret(out);
      var p := CopiesUpToBracket(s);
      SecretBeforeBracket(out, e, p);
      assert s[..p][..e] == s[..e] && out[..p][..e] == out[..e];
      SecretPrefixMatches(s, e);
    }
  }

  lemma SecretBeforeBracket(out: string, e: nat, p: nat)
    requires e <= |out| && Secret(out[..e]) && p <= |out| && (p < |out| ==> out[p] == '[')
    ensures e <= p
  {
    if p < e { SecretsHaveNoBracket(out[..e], p); }
  }

  lemma {:induction false} CleanIsKept(s: string)
    requires NoMatch(s)
    ensures ScrubText(s) == s
    decreases |s|
  {
    if s != "" {
      assert s[0..] == s;
      forall i | 0 <= i <= |s[1..]| ensures MatchEnd(s[1..][i..]).None? { assert s[1..][i..] == s[i + 1..]; }
      CleanIsKept(s[1..]);
      assert [s[0]] + s[1..] == s;
    }
  }

  /** Complete and stable: the output holds no secret, and exactly the texts without one are unchanged. */
  lemma {:induction false} ScrubTextTheorem(s: string)
    ensures Clean(ScrubText(s))
    ensures ScrubText(s) == s <==> Clean(s)
  {
    ScrubbedNoMatch(s);
    NoMatchIsClean(ScrubText(s));
    NoMatchIsClean(s);
    if NoMatch(s) { CleanIsKept(s); }
  }

  // ---- what exactly is replaced ---------------------------------------------------------

  /** The longest prefix of s with this shape has length e. */
  ghost predicate Longest(s: string, e: nat, shape: string -> bool) {
    e <= |s| && shape(s[..e]) && forall longer :: e < longer <= |s| ==> !shape(s[..longer])
  }

  ghost predicate Starts(s: string, shape: string -> bool) { exists e :: 0 <= e <= |s| && shape(s[..e]) }

  lemma KeyMatch(s: string)
    ensures if KeyEnd(s) >= 19 then Longest(s, KeyEnd(s), KeyShape) else !Starts(s, KeyShape)
  {
    forall e | 0 <= e <= |s| && KeyShape(s[..e]) ensures 19 <= e <= KeyEnd(s) {
      assert s[3..][..e - 3] == s[..e][3..];
      RunCovers(s[3..], e - 3, Alnum);
    }
    if KeyEnd(s) >= 19 { assert s[..KeyEnd(s)][3..] == s[3..][..RunLength(s[3..], Alnum)]; }
  }

  lemma {:induction false} BlobMatch(s: string)
    ensures var n := RunLength(s, BlobChar);
            if n >= 32 then Longest(s, n, BlobShape) else !Starts(s, BlobShape)
  {
    forall e | 0 <= e <= |s| && BlobShape(s[..e]) ensures 32 <= e <= RunLength(s, BlobChar) {
      RunCovers(s, e, BlobChar);
    }
  }

  ghost predicate AnyBearer(w: string) { exists k: nat :: BearerShape(w, k) }

  lemma BearerMatch(s: string)
    ensures if BearerEnd(s) > 0 then Longest(s, BearerEnd(s), AnyBearer) else !Starts(s, AnyBearer)
  {
    forall e | 0 <= e <= |s| && AnyBearer(s[..e]) ensures 0 < e <= BearerEnd(s) {
      var k: nat :| BearerShape(s[..e], k);
      BearerMatches(s, e, k);
    }
    if BearerEnd(s) > 0 { BearerEndIsBearer(s); }
  }

  lemma BearerEndIsBearer(s: string)
    requires BearerEnd(s) > 0
    ensures BearerEnd(s) <= |s| && AnyBearer(s[..BearerEnd(s)])
  {
    var w, k := s[..BearerEnd(s)], RunLength(s[6..], PythonSpace);
    assert w[6..6 + k] == s[6..][..k];
    assert w[6 + k..] == s[6 + k..][..RunLength(s[6 + k..], BearerChar)];
    assert BearerShape(w, k);
  }

  lemma ShapesAgree(s: string, one: string -> bool, two: string -> bool)
    requires forall w :: one(w) <==> two(w)
    ensures Starts(s, one) <==> Starts(s, two)
    ensures forall e :: Longest(s, e, one) <==> Longest(s, e, two)
  {}

  /** The match at the start of a text: the longest key if one starts there, else the longest bearer token, else the
      longest blob, else none. */
  lemma MatchMeaning(s: string)
    ensures match MatchEnd(s)
            case Some(e) => if Starts(s, KeyWritten) then Longest(s, e, KeyWritten)
                            else if Starts(s, IsBearer) then Longest(s, e, IsBearer)
                            else Longest(s, e, BlobWritten)
            case None => !Starts(s, KeyWritten) && !Starts(s, IsBearer) && !Starts(s, BlobWritten)
  {
    KeyMatch(s);
    BearerMatch(s);
    BlobMatch(s);
    forall w
      ensures KeyShape(w) <==> KeyWritten(w)
      ensures AnyBearer(w) <==> IsBearer(w)
      ensures BlobShape(w) <==> BlobWritten(w)
    {
      KeyIsWritten(w);
      BearersAreWritten(w);
      SecretIsWritten(w);
    }
    ShapesAgree(s, KeyShape, KeyWritten);
    ShapesAgree(s, AnyBearer, IsBearer);
    ShapesAgree(s, BlobShape, BlobWritten);
  }

  /** Plain pieces with a filler between each two. */
  function Weave(plain: seq<string>, fillers: seq<string>): string
    requires |plain| == |fillers| + 1
  {
    if |fillers| == 0 then plain[0] else plain[0] + fillers[0] + Weave(plain[1..], fillers[1..])
  }

  function Sentinels(n: nat): seq<string> { seq(n, _ => "[REDACTED]") }

  /** No match starts in a plain piece, and each secret is the match where it stands. */
  ghost predicate Leftmost(plain: seq<string>, secrets: seq<string>)
    requires |plain| == |secrets| + 1
  {
    var s := Weave(plain, secrets);
    && (forall i :: 0 <= i < |plain[0]| ==> MatchEnd(s[i..]) == None)
    && (secrets != [] ==> MatchEnd(s[|plain[0]|..]) == Some(|secrets[0]|) && Leftmost(plain[1..], secrets[1..]))
  }

  /** Scrubbing replaces the leftmost matches that do not overlap, and nothing else. */
  lemma {:induction false} ScrubReplaces(s: string) returns (plain: seq<string>, secrets: seq<string>)
    ensures |plain| == |secrets| + 1 && Weave(plain, secrets) == s && Leftmost(plain, secrets)
    ensures ScrubText(s) == Weave(plain, Sentinels(|secrets|))
    decreases |s|
  {
    if s == "" {
      plain, secrets := [""], [];
    } else if MatchEnd(s).Some? {
      var e := MatchEnd(s).value;
      plain, secrets := ScrubReplaces(s[e..]);
      StartSecret(s, e, plain, secrets);
      plain, secrets := [""] + plain, [s[..e]] + secrets;
    } else {
      plain, secrets := ScrubReplaces(s[1..]);
      StartPlain(s, plain, secrets);
      plain := [[s[0]] + plain[0]] + plain[1..];
    }
  }

  lemma {:induction false} StartSecret(s: string, e: nat, plain: seq<string>, secrets: seq<string>)
    requires s != "" && MatchEnd(s) == Some(e) && |plain| == |secrets| + 1
    requires Weave(plain, secrets) == s[e..] && Leftmost(plain, secrets)
    requires ScrubText(s[e..]) == Weave(plain, Sentinels(|secrets|))
    ensures Weave([""] + plain, [s[..e]] + secrets) == s && Leftmost([""] + plain, [s[..e]] + secrets)
    ensures ScrubText(s) == Weave([""] + plain, Sentinels(|secrets| + 1))
  {
    WeaveNext(plain, s[..e], secrets);
    HeadTail(s, e);
    LeftmostNext(s, e, plain, secrets);
    SentinelNext(plain, |secrets|);
  }

  lemma HeadTail(s: string, e: nat)
    requires e <= |s|
    ensures s[..e] + s[e..] == s
  {}

  lemma {:induction false} LeftmostNext(s: string, e: nat, plain: seq<string>, secrets: seq<string>)
    requires |plain| == |secrets| + 1 && Leftmost(plain, secrets) && e <= |s| && MatchEnd(s) == Some(e)
    requires Weave([""] + plain, [s[..e]] + secrets) == s
    ensures Leftmost([""] + plain, [s[..e]] + secrets)
  {
    var p, q := [""] + plain, [s[..e]] + secrets;
    assert s[0..] == s && p[1..] == plain && q[1..] == secrets;
  }

  lemma {:induction false} SentinelNext(plain: seq<string>, n: nat)
    requires |plain| == n + 1
    ensures Weave([""] + plain, Sentinels(n + 1)) == REDACTED + Weave(plain, Sentinels(n))
  {
    WeaveNext(plain, REDACTED, Sentinels(n));
    assert [REDACTED] + Sentinels(n) == Sentinels(n + 1);
  }

  lemma {:induction false} WeaveNext(plain: seq<string>, filler: string, fillers: seq<string>)
    requires |plain| == |fillers| + 1
    ensures Weave([""] + plain, [filler] + fillers) == filler + Weave(plain, fillers)
  {
    assert ([""] + plain)[1..] == plain && ([filler] + fillers)[1..] == fillers;
    assert "" + filler == filler;
  }

  lemma {:induction false} StartPlain(s: string, plain: seq<string>, secrets: seq<string>)
    requires s != "" && MatchEnd(s) == None && |plain| == |secrets| + 1
    requires Weave(plain, secrets) == s[1..] && Leftmost(plain, secrets)
    requires ScrubText(s[1..]) == Weave(plain, Sentinels(|secrets|))
    ensures var p := [[s[0]] + plain[0]] + plain[1..];
            Weave(p, secrets) == s && Leftmost(p, secrets) && ScrubText(s) == Weave(p, Sentinels(|secrets|))
  {
    var p := [[s[0]] + plain[0]] + plain[1..];
    WeaveFirst(s[0], plain, secrets);
    WeaveFirst(s[0], plain, Sentinels(|secrets|));
    assert [s[0]] + s[1..] == s;
    forall i | 0 <= i < |p[0]| ensures MatchEnd(s[i..]) == None {
      if i > 0 { assert s[i..] == s[1..][i - 1..]; } else { assert s[0..] == s; }
    }
    assert s[|p[0]|..] == s[1..][|plain[0]|..];
    assert p[1..] == plain[1..];
  }

  lemma {:induction false} WeaveFirst(c: char, plain: seq<string>, fillers: seq<string>)
    requires |plain| == |fillers| + 1
    ensures Weave([[c] + plain[0]] + plain[1..], fillers) == [c] + Weave(plain, fillers)
  {
    var p := [[c] + plain[0]] + plain[1..];
    assert p[1..] == plain[1..];
    if fillers != [] {
      var rest := Weave(plain[1..], fillers[1..]);
      assert [c] + plain[0] + fillers[0] + rest == [c] + (plain[0] + fillers[0] + rest);
    }
  }

  // ---- JSON -----------------------------------------------------------------------------

  datatype Json =
    | Null
    | Bool(value: bool)
    | Number(number: real)
    | Str(text: string)
    | Arr(items: seq<Json>)
    | Obj(fields: seq<Field>)

  datatype Field = Field(key: string, value: Json)

  const SENSITIVE: seq<string> := [
    "apikey", "api_key", "api-key", "authorization", "auth", "secret", "token", "password", "passwd", "bearer",
    "credential", "privatekey", "private_key", "private-key"]

  /** Case folding as the IGNORECASE flag applies it to these words, dotted, dotless and long letters included. */
  function Fold(c: char): char {
    if 'A' <= c <= 'Z' then (c as int + 32) as char
    else if c == '\U{0130}' || c == '\U{0131}' then 'i'
    else if c == '\U{017F}' then 's'
    else if c == '\U{212A}' then 'k'
    else c
  }

  function FoldAll(s: string): string { seq(|s|, i requires 0 <= i < |s| => Fold(s[i])) }

  predicate Contains(s: string, word: string) {
    exists i :: 0 <= i <= |s| && word <= s[i..]
  }

  predicate Sensitive(key: string) {
    exists k :: 0 <= k < |SENSITIVE| && Contains(FoldAll(key), SENSITIVE[k])
  }

  /** The words that make a key sensitive. */
  predicate KeyWord(w: string) {
    || w == "apikey" || w == "api_key" || w == "api-key" || w == "authorization" || w == "auth" || w == "secret"
    || w == "token" || w == "password" || w == "passwd" || w == "bearer" || w == "credential"
    || w == "privatekey" || w == "private_key" || w == "private-key"
  }

  /** c is the letter b in either case, or one of the letters that ignoring case takes for it. */
  predicate CaseOf(c: char, b: char) {
    || c == b
    || ('a' <= b <= 'z' && c as int + 32 == b as int)
    || (b == 'i' && (c == '\U{0130}' || c == '\U{0131}'))
    || (b == 's' && c == '\U{017F}')
    || (b == 'k' && c == '\U{212A}')
  }

  ghost predicate Spells(w: string, word: string) {
    |w| == |word| && forall i :: 0 <= i < |w| ==> CaseOf(w[i], word[i])
  }

  /** A sensitive word stands somewhere in this key, in whatever case. */
  ghost predicate NamesSecret(key: string) {
    exists i, j, word :: 0 <= i <= j <= |key| && KeyWord(word) && Spells(key[i..j], word)
  }

  /** Lower-case letters and the two separators. */
  predicate LowerWord(w: string) { forall i :: 0 <= i < |w| ==> 'a' <= w[i] <= 'z' || w[i] == '_' || w[i] == '-' }

  lemma KeyWordsAreListed(w: string)
    ensures KeyWord(w) <==> w in SENSITIVE
  {
    assert SENSITIVE == [SENSITIVE[0], SENSITIVE[1], SENSITIVE[2], SENSITIVE[3], SENSITIVE[4], SENSITIVE[5],
                         SENSITIVE[6], SENSITIVE[7], SENSITIVE[8], SENSITIVE[9], SENSITIVE[10], SENSITIVE[11],
                         SENSITIVE[12], SENSITIVE[13]];
  }

  lemma KeyWordsAreLower(w: string)
    requires KeyWord(w)
    ensures LowerWord(w)
  {}

  lemma FoldsTo(key: string, i: nat, j: nat, word: string)
    requires i <= j <= |key| && LowerWord(word)
    ensures Spells(key[i..j], word) <==> FoldAll(key)[i..j] == word
  {
    var w, folded := key[i..j], FoldAll(key)[i..j];
    if |w| == |word| {
      forall k | 0 <= k < |w| ensures CaseOf(w[k], word[k]) <==> folded[k] == word[k] {
        assert folded[k] == Fold(w[k]);
      }
    }
  }

  lemma SensitiveMeaning(key: string)
    ensures Sensitive(key) <==> NamesSecret(key)
  {
    if Sensitive(key) {
      var k :| 0 <= k < |SENSITIVE| && Contains(FoldAll(key), SENSITIVE[k]);
      KeyWordsAreListed(SENSITIVE[k]);
      KeyWordsAreLower(SENSITIVE[k]);
      var i := HeldIsNamed(key, SENSITIVE[k]);
    }
    if i, j, word :| 0 <= i <= j <= |key| && KeyWord(word) && Spells(key[i..j], word) {
      KeyWordsAreListed(word);
      KeyWordsAreLower(word);
      NamedIsHeld(key, i, j, word);
      var k :| 0 <= k < |SENSITIVE| && SENSITIVE[k] == word;
    }
  }

  lemma HeldIsNamed(key: string, word: string) returns (i: nat)
    requires Contains(FoldAll(key), word) && LowerWord(word)
    ensures i + |word| <= |key| && Spells(key[i..i + |word|], word)
  {
    var folded := FoldAll(key);
    i :| 0 <= i <= |folded| && word <= folded[i..];
    assert folded[i..i + |word|] == folded[i..][..|word|] == word;
    FoldsTo(key, i, i + |word|, word);
  }

  lemma NamedIsHeld(key: string, i: nat, j: nat, word: string)
    requires i <= j <= |key| && Spells(key[i..j], word) && LowerWord(word)
    ensures Contains(FoldAll(key), word)
  {
    FoldsTo(key, i, j, word);
    assert FoldAll(key)[i..][..j - i] == word;
  }

  function Scrub(v: Json): Json {
    match v
    case Str(text) => Str(ScrubText(text))
    case Arr(items) => Arr(ScrubItems(items))
    case Obj(fields) => Obj(ScrubFields(fields))
    case _ => v
  }

  function ScrubItems(items: seq<Json>): seq<Json> {
    if |items| == 0 then [] else [Scrub(items[0])] + ScrubItems(items[1..])
  }

  function ScrubFields(fields: seq<Field>): seq<Field> {
    if |fields| == 0 then [] else [ScrubField(fields[0])] + ScrubFields(fields[1..])
  }

  function ScrubField(f: Field): Field {
    Field(f.key, if Sensitive(f.key) then Str(REDACTED) else Scrub(f.value))
  }

  /** No string anywhere holds a secret, and sensitive fields hold the sentinel. */
  ghost predicate CleanJson(v: Json) {
    match v
    case Str(text) => Clean(text)
    case Arr(items) => forall i :: 0 <= i < |items| ==> CleanJson(items[i])
    case Obj(fields) => forall i :: 0 <= i < |fields| ==>
                          if NamesSecret(fields[i].key) then fields[i].value == Str(REDACTED)
                          else CleanJson(fields[i].value)
    case _ => true
  }

  /** Same structure and keys, in the same order; only texts and sensitive values may differ. */
  ghost predicate SameShape(v: Json, w: Json) {
    match v
    case Str(text) => w.Str?
    case Arr(items) =>
      w.Arr? && |w.items| == |items| && forall i :: 0 <= i < |items| ==> SameShape(items[i], w.items[i])
    case Obj(fields) => w.Obj? && |w.fields| == |fields| && forall i :: 0 <= i < |fields| ==>
                          w.fields[i].key == fields[i].key
                          && (NamesSecret(fields[i].key) || SameShape(fields[i].value, w.fields[i].value))
    case _ => w == v
  }

  lemma {:induction false} ItemsPointwise(items: seq<Json>)
    ensures |ScrubItems(items)| == |items|
    ensures forall i :: 0 <= i < |items| ==> ScrubItems(items)[i] == Scrub(items[i])
  {
    if items != [] { ItemsPointwise(items[1..]); }
  }

  lemma {:induction false} FieldsPointwise(fields: seq<Field>)
    ensures |ScrubFields(fields)| == |fields|
    ensures forall i :: 0 <= i < |fields| ==> ScrubFields(fields)[i] == ScrubField(fields[i])
  {
    if fields != [] { FieldsPointwise(fields[1..]); }
  }

  /** The result is clean, keeps the shape, and is the input exactly when that was clean. */
  lemma {:induction false} ScrubTheorem(v: Json)
    ensures CleanJson(Scrub(v))
    ensures SameShape(v, Scrub(v))
    ensures Scrub(v) == v <==> CleanJson(v)
  {
    match v
    case Str(text) => ScrubTextTheorem(text);
    case Arr(items) =>
      ItemsPointwise(items);
      forall i | 0 <= i < |items|
        ensures CleanJson(Scrub(items[i])) && SameShape(items[i], Scrub(items[i]))
        ensures Scrub(items[i]) == items[i] <==> CleanJson(items[i])
      {
        ScrubTheorem(items[i]);
      }
    case Obj(fields) =>
      FieldsPointwise(fields);
      forall i | 0 <= i < |fields|
        ensures CleanJson(Scrub(fields[i].value)) && SameShape(fields[i].value, Scrub(fields[i].value))
        ensures Scrub(fields[i].value) == fields[i].value <==> CleanJson(fields[i].value)
      {
        ScrubTheorem(fields[i].value);
      }
      forall i | 0 <= i < |fields| ensures Sensitive(fields[i].key) <==> NamesSecret(fields[i].key) {
        SensitiveMeaning(fields[i].key);
      }
      ObjKept(fields);
    case _ =>
  }

  /** A field a scrub leaves alone. */
  ghost predicate FieldClean(f: Field) {
    if NamesSecret(f.key) then f.value == Str(REDACTED) else CleanJson(f.value)
  }

  lemma {:induction false} FieldKept(f: Field)
    requires Scrub(f.value) == f.value <==> CleanJson(f.value)
    ensures ScrubField(f) == f <==> FieldClean(f)
  {
    SensitiveMeaning(f.key);
  }

  lemma {:induction false} ObjKept(fields: seq<Field>)
    requires forall i :: 0 <= i < |fields| ==>
               (Scrub(fields[i].value) == fields[i].value <==> CleanJson(fields[i].value))
    ensures ScrubFields(fields) == fields <==> forall i :: 0 <= i < |fields| ==> FieldClean(fields[i])
  {
    FieldsPointwise(fields);
    forall i | 0 <= i < |fields| ensures ScrubFields(fields)[i] == fields[i] <==> FieldClean(fields[i]) {
      FieldKept(fields[i]);
    }
  }

  /** Value by value: texts are scrubbed, lists and objects in place, a sensitive key's value becomes the sentinel
      whatever it was, and nothing else changes. */
  lemma {:induction false} ScrubMeaning(v: Json)
    ensures match v
            case Str(text) => Scrub(v) == Str(ScrubText(text))
            case Arr(items) =>
              Scrub(v).Arr? && |Scrub(v).items| == |items|
              && forall i :: 0 <= i < |items| ==> Scrub(v).items[i] == Scrub(items[i])
            case Obj(fields) =>
              Scrub(v).Obj? && |Scrub(v).fields| == |fields|
              && forall i :: 0 <= i < |fields| ==>
                   Scrub(v).fields[i]
                   == Field(fields[i].key,
                            if NamesSecret(fields[i].key) then Str("[REDACTED]") else Scrub(fields[i].value))
            case _ => Scrub(v) == v
  {
    match v
    case Arr(items) => ItemsPointwise(items);
    case Obj(fields) =>
      FieldsPointwise(fields);
      forall i | 0 <= i < |fields| ensures Sensitive(fields[i].key) <==> NamesSecret(fields[i].key) {
        SensitiveMeaning(fields[i].key);
      }
    case _ =>
  }

  /** A sensitive word in any case, with anything around it, redacts the value of its field. */
  lemma SensitiveWordRedacts(pre: string, w: string, word: string, post: string, value: Json)
    requires KeyWord(word) && Spells(w, word)
    ensures var key := pre + w + post; Scrub(Obj([Field(key, value)])) == Obj([Field(key, Str("[REDACTED]"))])
  {
    var key := pre + w + post;
    assert key[|pre|..|pre| + |w|] == w;
    ScrubMeaning(Obj([Field(key, value)]));
  }

  /** Scrubbing twice is scrubbing once. */
  lemma {:induction false} ScrubIsIdempotent(v: Json)
    ensures Scrub(Scrub(v)) == Scrub(v)
  {
    ScrubTheorem(v);
    ScrubTheorem(Scrub(v));
  }
}
