/** String primitives the source relies on: Python `str.strip`/`str.split`
    and JavaScript `String.prototype.trim`, ASCII case mapping, substring
    membership (Python `in`), prefixes and slicing. Python and JavaScript
    disagree on what counts as white space, so every white-space operation
    takes a `Flavor`. */
module Text {

  datatype Flavor = Py | Js

  /** Python `str.isspace` on one character (the set `str.strip()` and
      `str.split()` use), or JavaScript's WhiteSpace and LineTerminator
      characters (the set `trim()` uses). */
  predicate IsSpace(c: char, f: Flavor)
  {
    || ('\t' <= c <= '\r')
    || c == ' ' || c == '\U{00A0}' || c == '\U{1680}'
    || ('\U{2000}' <= c <= '\U{200A}')
    || c == '\U{2028}' || c == '\U{2029}' || c == '\U{202F}' || c == '\U{205F}' || c == '\U{3000}'
    || (f == Py && (('\U{001C}' <= c <= '\U{001F}') || c == '\U{0085}'))
    || (f == Js && c == '\U{FEFF}')
  }

  predicate AllSpace(s: string, f: Flavor)
  {
    forall k :: 0 <= k < |s| ==> IsSpace(s[k], f)
  }

  /** Length of the white-space prefix of `s`. */
  function LeadingSpace(s: string, f: Flavor): (n: nat)
    ensures n <= |s|
    ensures AllSpace(s[..n], f)
    ensures n < |s| ==> !IsSpace(s[n], f)
  {
    if s == [] || !IsSpace(s[0], f) then 0
    else
      var n := 1 + LeadingSpace(s[1..], f);
      assert s[..n] == [s[0]] + s[1..][..n - 1];
      n
  }

  /** Length of the white-space suffix of `s`. */
  function TrailingSpace(s: string, f: Flavor): (n: nat)
    ensures n <= |s|
    ensures AllSpace(s[|s| - n..], f)
    ensures n < |s| ==> !IsSpace(s[|s| - n - 1], f)
  {
    if s == [] || !IsSpace(s[|s| - 1], f) then 0
    else
      var n := 1 + TrailingSpace(s[..|s| - 1], f);
      assert s[|s| - n..] == s[..|s| - 1][|s| - n..] + [s[|s| - 1]];
      n
  }

  /** Python `s.strip()` (flavour `Py`) or JavaScript `s.trim()` (flavour
      `Js`): the longest slice of `s` that neither starts nor ends with
      white space, obtained by removing only white space at both ends. */
  function Strip(s: string, f: Flavor): (r: string)
    ensures |r| <= |s|
    ensures var a := LeadingSpace(s, f);
            a + |r| <= |s| && r == s[a..a + |r|]
            && AllSpace(s[..a], f) && AllSpace(s[a + |r|..], f)
    ensures r == [] <==> AllSpace(s, f)
    ensures r != [] ==> !IsSpace(r[0], f) && !IsSpace(r[|r| - 1], f)
  {
    var a := LeadingSpace(s, f);
    if a == |s| then
      assert s[..a] == s;
      []
    else
      var b := |s| - TrailingSpace(s, f);
      assert !IsSpace(s[a], f);
      assert a < b;
      s[a..b]
  }

  /** `not s.strip()` in Python, `!s.trim()` in JavaScript. */
  predicate IsBlank(s: string, f: Flavor): (b: bool)
    ensures b <==> AllSpace(s, f)
  {
    Strip(s, f) == []
  }

  /** Stripping twice is stripping once. */
  lemma StripIdempotent(s: string, f: Flavor)
    ensures Strip(Strip(s, f), f) == Strip(s, f)
  {
    var r := Strip(s, f);
    if r != [] {
      assert LeadingSpace(r, f) == 0;
      assert TrailingSpace(r, f) == 0;
    }
  }

  function LowerChar(c: char): char
  {
    if 'A' <= c <= 'Z' then (c as int - 'A' as int + 'a' as int) as char else c
  }

  function UpperChar(c: char): char
  {
    if 'a' <= c <= 'z' then (c as int - 'a' as int + 'A' as int) as char else c
  }

  /** Python `str.lower()` / JavaScript `toLowerCase()` on the ASCII range. */
  function Lower(s: string): (r: string)
    ensures |r| == |s|
    ensures forall k :: 0 <= k < |s| ==> r[k] == LowerChar(s[k])
  {
    seq(|s|, k requires 0 <= k < |s| => LowerChar(s[k]))
  }

  /** Lowercasing is idempotent. */
  lemma LowerIdempotent(s: string)
    ensures Lower(Lower(s)) == Lower(s)
  {
  }

  /** `needle` occurs in `hay` starting at index `i`. */
  predicate OccursAt(needle: string, hay: string, i: int)
  {
    0 <= i <= |hay| - |needle| && hay[i..i + |needle|] == needle
  }

  /** Python `needle in hay` on strings. */
  predicate IsSubstring(needle: string, hay: string)
  {
    exists i | 0 <= i <= |hay| - |needle| :: OccursAt(needle, hay, i)
  }

  /** Python `s.startswith(prefix)`. */
  predicate StartsWith(s: string, prefix: string)
  {
    |prefix| <= |s| && s[..|prefix|] == prefix
  }

  /** `s[:n]` in Python, `s.slice(0, n)` in JavaScript, for `n >= 0`. */
  function Take<T>(s: seq<T>, n: nat): (r: seq<T>)
    ensures |r| == if n < |s| then n else |s|
    ensures r <= s
  {
    if n < |s| then s[..n] else s
  }

  predicate IsDigit(c: char)
  {
    '0' <= c <= '9'
  }

  /** Number of leading non-white-space characters of `s`. */
  function WordLength(s: string, f: Flavor): (n: nat)
    ensures n <= |s|
    ensures forall k :: 0 <= k < n ==> !IsSpace(s[k], f)
    ensures n < |s| ==> IsSpace(s[n], f)
  {
    if s == [] || IsSpace(s[0], f) then 0 else 1 + WordLength(s[1..], f)
  }

  /** Python `s.split()` with no separator: the maximal runs of
      non-white-space characters, in order. */
  function Words(s: string, f: Flavor): (ws: seq<string>)
    ensures forall k :: 0 <= k < |ws| ==> ws[k] != [] && NoSpace(ws[k], f)
    decreases |s|
  {
    var a := LeadingSpace(s, f);
    var t := s[a..];
    if t == [] then []
    else
      var n := WordLength(t, f);
      assert n >= 1;
      [t[..n]] + Words(t[n..], f)
  }

  predicate NoSpace(s: string, f: Flavor)
  {
    forall k :: 0 <= k < |s| ==> !IsSpace(s[k], f)
  }

  /** The characters of `s` that are not white space, in order. */
  function NonSpace(s: string, f: Flavor): string
  {
    if s == [] then []
    else if IsSpace(s[0], f) then NonSpace(s[1..], f)
    else [s[0]] + NonSpace(s[1..], f)
  }

  function Concat(ws: seq<string>): string
  {
    if ws == [] then [] else ws[0] + Concat(ws[1..])
  }

  lemma {:induction false} NonSpaceAppend(a: string, b: string, f: Flavor)
    ensures NonSpace(a + b, f) == NonSpace(a, f) + NonSpace(b, f)
    decreases |a|
  {
    if a == [] {
      assert a + b == b;
    } else {
      assert (a + b)[1..] == a[1..] + b;
      NonSpaceAppend(a[1..], b, f);
    }
  }

  lemma {:induction false} NonSpaceOfAllSpace(s: string, f: Flavor)
    requires AllSpace(s, f)
    ensures NonSpace(s, f) == []
    decreases |s|
  {
    if s != [] {
      NonSpaceOfAllSpace(s[1..], f);
    }
  }

  lemma {:induction false} NonSpaceOfNoSpace(s: string, f: Flavor)
    requires NoSpace(s, f)
    ensures NonSpace(s, f) == s
    decreases |s|
  {
    if s != [] {
      NonSpaceOfNoSpace(s[1..], f);
      assert s == [s[0]] + s[1..];
    }
  }

  /** Leading white space contributes nothing to `NonSpace`. */
  lemma NonSpaceSkipsLeading(s: string, f: Flavor)
    ensures NonSpace(s, f) == NonSpace(s[LeadingSpace(s, f)..], f)
  {
    var a := LeadingSpace(s, f);
    assert s == s[..a] + s[a..];
    NonSpaceAppend(s[..a], s[a..], f);
    NonSpaceOfAllSpace(s[..a], f);
  }

  /** A leading run of non-white-space characters is kept whole. */
  lemma NonSpaceKeepsWord(t: string, n: nat, f: Flavor)
    requires n <= |t|
    requires NoSpace(t[..n], f)
    ensures NonSpace(t, f) == t[..n] + NonSpace(t[n..], f)
  {
    assert t == t[..n] + t[n..];
    NonSpaceAppend(t[..n], t[n..], f);
    NonSpaceOfNoSpace(t[..n], f);
  }

  /** Splitting loses exactly the white space: gluing the words back
      together gives the non-white-space characters of the input. */
  lemma {:induction false} WordsCoverNonSpace(s: string, f: Flavor)
    ensures Concat(Words(s, f)) == NonSpace(s, f)
    decreases |s|
  {
    var t := s[LeadingSpace(s, f)..];
    NonSpaceSkipsLeading(s, f);
    if t != [] {
      var n := WordLength(t, f);
      var rest := Words(t[n..], f);
      assert Words(s, f) == [t[..n]] + rest;
      assert Concat([t[..n]] + rest) == t[..n] + Concat(rest);
      WordsCoverNonSpace(t[n..], f);
      NonSpaceKeepsWord(t, n, f);
    }
  }

  /** A string has no words exactly when it is blank. */
  lemma WordsEmptyIffBlank(s: string, f: Flavor)
    ensures Words(s, f) == [] <==> IsBlank(s, f)
  {
    var a := LeadingSpace(s, f);
    if a == |s| {
      assert s[..a] == s;
    }
  }

  /** An independent count of the words of `s`: one left-to-right scan
      counting the positions where a non-white-space character follows
      white space or the start. `afterSpace` says whether the character
      before `s` was white space (or `s` is at the start). */
  function WordStarts(s: string, f: Flavor, afterSpace: bool): nat
    decreases |s|
  {
    if s == [] then 0
    else (if afterSpace && !IsSpace(s[0], f) then 1 else 0) + WordStarts(s[1..], f, IsSpace(s[0], f))
  }

  /** A white-space prefix starts no word. */
  lemma {:induction false} WordStartsSkipsSpace(s: string, f: Flavor, a: nat)
    requires a <= |s| && AllSpace(s[..a], f)
    ensures WordStarts(s, f, true) == WordStarts(s[a..], f, true)
    decreases a
  {
    if a > 0 {
      assert IsSpace(s[..a][0], f);
      var w := s[1..][..a - 1];
      assert AllSpace(w, f) by {
        forall k | 0 <= k < |w| ensures IsSpace(w[k], f) {
          assert w[k] == s[..a][k + 1];
        }
      }
      WordStartsSkipsSpace(s[1..], f, a - 1);
      assert s[1..][a - 1..] == s[a..];
    }
  }

  /** The rest of a word starts no word. */
  lemma {:induction false} WordStartsInsideWord(s: string, f: Flavor, m: nat)
    requires m <= |s| && NoSpace(s[..m], f)
    ensures WordStarts(s, f, false) == WordStarts(s[m..], f, false)
    decreases m
  {
    if m > 0 {
      assert !IsSpace(s[..m][0], f);
      var w := s[1..][..m - 1];
      assert NoSpace(w, f) by {
        forall k | 0 <= k < |w| ensures !IsSpace(w[k], f) {
          assert w[k] == s[..m][k + 1];
        }
      }
      WordStartsInsideWord(s[1..], f, m - 1);
      assert s[1..][m - 1..] == s[m..];
    }
  }

  /** `split()` returns one word per start of a white-space-delimited run,
      so `len(s.split())` is the number of such runs. */
  lemma {:induction false} WordsCount(s: string, f: Flavor)
    ensures |Words(s, f)| == WordStarts(s, f, true)
    decreases |s|
  {
    var a := LeadingSpace(s, f);
    var t := s[a..];
    WordStartsSkipsSpace(s, f, a);
    if t != [] {
      var n := WordLength(t, f);
      assert Words(s, f) == [t[..n]] + Words(t[n..], f);
      var w := t[1..][..n - 1];
      assert NoSpace(w, f) by {
        forall k | 0 <= k < |w| ensures !IsSpace(w[k], f) {
          assert w[k] == t[k + 1];
        }
      }
      WordStartsInsideWord(t[1..], f, n - 1);
      assert t[1..][n - 1..] == t[n..];
      assert WordStarts(t[n..], f, false) == WordStarts(t[n..], f, true);
      WordsCount(t[n..], f);
    }
  }
}
