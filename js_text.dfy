/**
 * The JavaScript string built-ins the modelled code relies on: `substring`
 * with its clamping of out-of-range indices, the `\s` character class,
 * `trim`, `includes`, `toLowerCase` and a few `replace(/.../g, ...)` forms.
 */
module JsText {

  /** JavaScript's `\s` class, which is also the set `String.prototype.trim` strips. */
  predicate IsWhitespace(c: char) {
    c == ' ' || c == '\t' || c == '\n' || c == '\r' || c == '\U{000B}' || c == '\U{000C}'
    || c == '\U{00A0}' || c == '\U{1680}' || ('\U{2000}' <= c <= '\U{200A}')
    || c == '\U{2028}' || c == '\U{2029}' || c == '\U{202F}' || c == '\U{205F}'
    || c == '\U{3000}' || c == '\U{FEFF}'
  }

  /** How `substring` clamps an index into `0..n`. */
  function Clamp(k: int, n: nat): (r: nat)
    ensures r <= n
    ensures 0 <= k <= n ==> r == k
    ensures k <= 0 ==> r == 0
    ensures n <= k ==> r == n
  {
    if k < 0 then 0 else if k > n then n else k
  }

  /** `s.substring(0, k)`. */
  function Prefix(s: string, k: int): (r: string)
    ensures |r| == Clamp(k, |s|) && r == s[..|r|]
  {
    s[..Clamp(k, |s|)]
  }

  /** `s.substring(k)`. */
  function From(s: string, k: int): (r: string)
    ensures |r| == |s| - Clamp(k, |s|) && r == s[Clamp(k, |s|)..]
  {
    s[Clamp(k, |s|)..]
  }

  predicate StartsWith(s: string, t: string) {
    |t| <= |s| && s[..|t|] == t
  }

  /** `s.endsWith(t)`. */
  predicate EndsWith(s: string, t: string) {
    |t| <= |s| && s[|s| - |t|..] == t
  }

  /** `s.includes(t)`. */
  predicate Contains(s: string, t: string)
    decreases |s|
  {
    StartsWith(s, t) || (s != [] && Contains(s[1..], t))
  }

  /** `Contains` holds as soon as `t` occurs at some offset. */
  lemma {:induction false} ContainsAt(s: string, t: string, k: nat)
    requires k + |t| <= |s| && s[k..k + |t|] == t
    ensures Contains(s, t)
    decreases k
  {
    if k == 0 {
      assert s[..|t|] == s[0..0 + |t|];
    } else {
      assert s[1..][k - 1..k - 1 + |t|] == s[k..k + |t|];
      ContainsAt(s[1..], t, k - 1);
    }
  }

  /** The characters of `s` that are not whitespace, in order. */
  function NonWhitespace(s: string): string
    decreases |s|
  {
    if s == [] then [] else (if IsWhitespace(s[0]) then [] else [s[0]]) + NonWhitespace(s[1..])
  }

  lemma {:induction false} NonWhitespaceConcat(a: string, b: string)
    ensures NonWhitespace(a + b) == NonWhitespace(a) + NonWhitespace(b)
    decreases |a|
  {
    if a != [] {
      assert (a + b)[0] == a[0];
      assert (a + b)[1..] == a[1..] + b;
      NonWhitespaceConcat(a[1..], b);
      calc {
        NonWhitespace(a + b);
        (if IsWhitespace(a[0]) then [] else [a[0]]) + NonWhitespace(a[1..] + b);
        (if IsWhitespace(a[0]) then [] else [a[0]]) + (NonWhitespace(a[1..]) + NonWhitespace(b));
      }
    } else {
      assert a + b == b;
    }
  }

  lemma {:induction false} NonWhitespaceOfBlank(s: string)
    requires forall i :: 0 <= i < |s| ==> IsWhitespace(s[i])
    ensures NonWhitespace(s) == []
    decreases |s|
  {
    if s != [] {
      NonWhitespaceOfBlank(s[1..]);
    }
  }

  /** Length of the whitespace run that starts `s`. */
  function LeadingWhitespace(s: string): (n: nat)
    ensures n <= |s|
    ensures forall i :: 0 <= i < n ==> IsWhitespace(s[i])
    ensures n < |s| ==> !IsWhitespace(s[n])
    decreases |s|
  {
    if s != [] && IsWhitespace(s[0]) then 1 + LeadingWhitespace(s[1..]) else 0
  }

  /** Length of the whitespace run that ends `s`. */
  function TrailingWhitespace(s: string): (n: nat)
    ensures n <= |s|
    ensures forall i :: |s| - n <= i < |s| ==> IsWhitespace(s[i])
    ensures n < |s| ==> !IsWhitespace(s[|s| - n - 1])
    decreases |s|
  {
    if s != [] && IsWhitespace(s[|s| - 1]) then 1 + TrailingWhitespace(s[..|s| - 1]) else 0
  }

  /** `s.trim()`: `s` without its leading and trailing whitespace. */
  function Trim(s: string): (r: string)
    ensures LeadingWhitespace(s) + |r| <= |s|
    ensures r == s[LeadingWhitespace(s)..LeadingWhitespace(s) + |r|]
    ensures r == [] || (!IsWhitespace(r[0]) && !IsWhitespace(r[|r| - 1]))
    ensures NonWhitespace(r) == NonWhitespace(s)
  {
    var a := LeadingWhitespace(s);
    var t := s[a..];
    var r := t[..|t| - TrailingWhitespace(t)];
    TrimKeepsText(s, a, t, r);
    TrimEnds(s, a, t, r);
    r
  }

  /** Dropping blank runs at both ends keeps the non-whitespace text. */
  lemma TrimKeepsText(s: string, a: nat, t: string, r: string)
    requires a == LeadingWhitespace(s) && t == s[a..] && r == t[..|t| - TrailingWhitespace(t)]
    ensures NonWhitespace(r) == NonWhitespace(s)
  {
    var tail := t[|r|..];
    BlankTail(t, TrailingWhitespace(t), tail);
    assert t == r + tail;
    var head := s[..a];
    assert forall i :: 0 <= i < |head| ==> IsWhitespace(head[i]) by {
      forall i | 0 <= i < |head| ensures IsWhitespace(head[i]) {
        assert head[i] == s[i];
      }
    }
    assert s == head + (r + tail);
    BlankFramesKeepText(head, r, tail);
  }

  /** The trailing whitespace run, read as a text of its own, is all whitespace. */
  lemma BlankTail(t: string, n: nat, tail: string)
    requires n == TrailingWhitespace(t) && tail == t[|t| - n..]
    ensures forall i :: 0 <= i < |tail| ==> IsWhitespace(tail[i])
  {
    forall i | 0 <= i < |tail| ensures IsWhitespace(tail[i]) {
      assert tail[i] == t[|t| - n + i];
    }
  }

  /** What remains after dropping both blank runs is a slice of the text that starts and ends with non-whitespace. */
  lemma TrimEnds(s: string, a: nat, t: string, r: string)
    requires a == LeadingWhitespace(s) && t == s[a..] && r == t[..|t| - TrailingWhitespace(t)]
    ensures a + |r| <= |s| && r == s[a..a + |r|]
    ensures r == [] || (!IsWhitespace(r[0]) && !IsWhitespace(r[|r| - 1]))
  {
    if r != [] {
      assert r[0] == s[a];
      assert r[|r| - 1] == t[|t| - TrailingWhitespace(t) - 1];
    }
  }

  lemma BlankFramesKeepText(head: string, r: string, tail: string)
    requires forall i :: 0 <= i < |head| ==> IsWhitespace(head[i])
    requires forall i :: 0 <= i < |tail| ==> IsWhitespace(tail[i])
    ensures NonWhitespace(head + (r + tail)) == NonWhitespace(r)
  {
    NonWhitespaceConcat(head, r + tail);
    NonWhitespaceConcat(r, tail);
    NonWhitespaceOfBlank(head);
    NonWhitespaceOfBlank(tail);
  }

  /** Trimming text that neither starts nor ends with whitespace changes nothing. */
  lemma TrimTrimmed(s: string)
    requires s == [] || (!IsWhitespace(s[0]) && !IsWhitespace(s[|s| - 1]))
    ensures Trim(s) == s
  {
  }

  /** `s.replace(/\s+/g, rep)`: every maximal whitespace run becomes one `rep`. */
  function ReplaceWhitespaceRuns(s: string, rep: char): (r: string)
    ensures |r| <= |s|
    ensures r == [] <==> s == []
    ensures |s| > 0 && !IsWhitespace(s[0]) ==> r[0] == s[0]
    ensures forall i :: 0 <= i < |r| && IsWhitespace(r[i]) ==> r[i] == rep
    ensures forall i :: 0 <= i < |r| - 1 ==> !(IsWhitespace(r[i]) && IsWhitespace(r[i + 1]))
    ensures IsWhitespace(rep) ==> NonWhitespace(r) == NonWhitespace(s)
    decreases |s|
  {
    if s == [] then []
    else if IsWhitespace(s[0]) then
      var k := LeadingWhitespace(s);
      var rest := ReplaceWhitespaceRuns(s[k..], rep);
      assert s == s[..k] + s[k..];
      NonWhitespaceConcat(s[..k], s[k..]);
      NonWhitespaceOfBlank(s[..k]);
      NonWhitespaceConcat([rep], rest);
      [rep] + rest
    else
      var rest := ReplaceWhitespaceRuns(s[1..], rep);
      NonWhitespaceConcat([s[0]], rest);
      [s[0]] + rest
  }

  /** A text whose only whitespace is single `rep` characters is left as it is. */
  lemma {:induction false} ReplaceWhitespaceRunsFixed(s: string, rep: char)
    requires IsWhitespace(rep)
    requires forall i :: 0 <= i < |s| && IsWhitespace(s[i]) ==> s[i] == rep
    requires forall i :: 0 <= i < |s| - 1 ==> !(IsWhitespace(s[i]) && IsWhitespace(s[i + 1]))
    ensures ReplaceWhitespaceRuns(s, rep) == s
    decreases |s|
  {
    if s != [] {
      if IsWhitespace(s[0]) {
        assert LeadingWhitespace(s) == 1 by {
          if |s| > 1 { assert !IsWhitespace(s[1]); }
        }
      }
      ReplaceWhitespaceRunsFixed(s[1..], rep);
      assert s == [s[0]] + s[1..];
    }
  }

  /** The whitespace run that starts `s` is pinned by its two defining properties. */
  lemma LeadingWhitespaceIs(s: string, n: nat)
    requires n <= |s| && forall i :: 0 <= i < n ==> IsWhitespace(s[i])
    requires n < |s| ==> !IsWhitespace(s[n])
    ensures LeadingWhitespace(s) == n
  {
  }

  /** The whitespace run that ends `s` is pinned by its two defining properties. */
  lemma TrailingWhitespaceIs(s: string, n: nat)
    requires n <= |s| && forall i :: |s| - n <= i < |s| ==> IsWhitespace(s[i])
    requires n < |s| ==> !IsWhitespace(s[|s| - n - 1])
    ensures TrailingWhitespace(s) == n
  {
  }

  /** Non-whitespace characters pass through `s.replace(/\s+/g, rep)` unchanged. */
  lemma {:induction false} ReplaceRunsKeepWord(word: string, rest: string, rep: char)
    requires forall i :: 0 <= i < |word| ==> !IsWhitespace(word[i])
    ensures ReplaceWhitespaceRuns(word + rest, rep) == word + ReplaceWhitespaceRuns(rest, rep)
    decreases |word|
  {
    var s := word + rest;
    if word == [] {
      assert s == rest;
    } else {
      assert s[0] == word[0] && s[1..] == word[1..] + rest;
      assert ReplaceWhitespaceRuns(s, rep) == [s[0]] + ReplaceWhitespaceRuns(s[1..], rep);
      ReplaceRunsKeepWord(word[1..], rest, rep);
      assert word == [word[0]] + word[1..];
    }
  }

  /**
   * The run law of `s.replace(/\s+/g, rep)`: a whole whitespace run `w` (the
   * text before it does not end in whitespace, the text after it does not
   * start with it) becomes exactly one `rep`, and the two sides are replaced
   * on their own.
   */
  lemma {:induction false} ReplaceRunsSplice(p: string, w: string, q: string, rep: char)
    requires p == [] || !IsWhitespace(p[|p| - 1])
    requires w != [] && forall i :: 0 <= i < |w| ==> IsWhitespace(w[i])
    requires q == [] || !IsWhitespace(q[0])
    ensures ReplaceWhitespaceRuns(p + w + q, rep)
         == ReplaceWhitespaceRuns(p, rep) + [rep] + ReplaceWhitespaceRuns(q, rep)
    decreases |p|
  {
    var s := p + w + q;
    if p == [] {
      assert s == w + q;
      ReplaceRunsAtBlank(w, q, rep);
    } else if !IsWhitespace(p[0]) {
      ReplaceRunsSplice(p[1..], w, q, rep);
      ReplaceRunsSpliceStep(p, 1, w, q, rep);
    } else {
      var j := LeadingWhitespace(p);
      assert j < |p|;
      ReplaceRunsSplice(p[j..], w, q, rep);
      ReplaceRunsSpliceStep(p, j, w, q, rep);
    }
  }

  /**
   * One step of the run law: `p` starts with one kept character (`j == 1`)
   * or with a whole whitespace run of length `j`, and the law holds for the
   * text after it.
   */
  lemma ReplaceRunsSpliceStep(p: string, j: nat, w: string, q: string, rep: char)
    requires p != [] && j <= |p|
    requires !IsWhitespace(p[0]) ==> j == 1
    requires IsWhitespace(p[0]) ==> j == LeadingWhitespace(p) < |p|
    requires ReplaceWhitespaceRuns(p[j..] + w + q, rep)
          == ReplaceWhitespaceRuns(p[j..], rep) + [rep] + ReplaceWhitespaceRuns(q, rep)
    ensures ReplaceWhitespaceRuns(p + w + q, rep) == ReplaceWhitespaceRuns(p, rep) + [rep] + ReplaceWhitespaceRuns(q, rep)
  {
    var s := p + w + q;
    var lead := if IsWhitespace(p[0]) then [rep] else [p[0]];
    DropFromFront(p, j, w, q);
    if IsWhitespace(p[0]) {
      LeadingWhitespaceIs(s, j);
    }
    assert ReplaceWhitespaceRuns(s, rep) == lead + ReplaceWhitespaceRuns(s[j..], rep);
    assert ReplaceWhitespaceRuns(p, rep) == lead + ReplaceWhitespaceRuns(p[j..], rep);
    AppendRegroup(lead, ReplaceWhitespaceRuns(p[j..], rep), [rep], ReplaceWhitespaceRuns(q, rep));
  }

  /** A text split at `n`, and its tail split again at `k`. */
  lemma TakeDrop<T>(s: seq<T>, n: nat, k: nat)
    requires n + k <= |s|
    ensures s[..n] + s[n..] == s && s[n..][k..] == s[n + k..]
  {
  }

  /** The replacement of a text that starts with whitespace starts with one `rep`. */
  lemma RunsAtBlankStart(s: string, rep: char)
    requires s != [] && IsWhitespace(s[0])
    ensures ReplaceWhitespaceRuns(s, rep) == [rep] + ReplaceWhitespaceRuns(s[LeadingWhitespace(s)..], rep)
  {
  }

  /** Regrouping a three-part concatenation. */
  lemma AppendAssoc<T>(a: seq<T>, b: seq<T>, c: seq<T>)
    ensures a + (b + c) == a + b + c
  {
  }

  /** Regrouping a four-part concatenation. */
  lemma AppendRegroup<T>(a: seq<T>, b: seq<T>, c: seq<T>, d: seq<T>)
    ensures a + (b + c + d) == (a + b) + c + d
  {
  }

  /** Dropping a part of the first of three joined texts. */
  lemma DropFromFront(p: string, j: nat, w: string, q: string)
    requires j <= |p|
    ensures (p + w + q)[j..] == p[j..] + w + q
    ensures forall i :: 0 <= i < |p| ==> (p + w + q)[i] == p[i]
  {
  }

  /** A text that starts with a whole whitespace run `w` starts its replacement with one `rep`. */
  lemma ReplaceRunsAtBlank(w: string, q: string, rep: char)
    requires w != [] && forall i :: 0 <= i < |w| ==> IsWhitespace(w[i])
    requires q == [] || !IsWhitespace(q[0])
    ensures ReplaceWhitespaceRuns(w + q, rep) == [rep] + ReplaceWhitespaceRuns(q, rep)
  {
    LeadingWhitespaceIs(w + q, |w|);
    assert (w + q)[|w|..] == q;
  }

  /** A word: a non-empty text without whitespace. */
  predicate IsWord(w: string) {
    w != [] && forall i :: 0 <= i < |w| ==> !IsWhitespace(w[i])
  }

  /** Length of the run of non-whitespace characters that starts `s`. */
  function WordLength(s: string): (n: nat)
    ensures n <= |s|
    ensures forall i :: 0 <= i < n ==> !IsWhitespace(s[i])
    ensures n < |s| ==> IsWhitespace(s[n])
    decreases |s|
  {
    if s != [] && !IsWhitespace(s[0]) then 1 + WordLength(s[1..]) else 0
  }

  /** The words of `s`: its maximal runs of non-whitespace characters, in order. */
  function Words(s: string): (ws: seq<string>)
    ensures forall k :: 0 <= k < |ws| ==> IsWord(ws[k])
    ensures s != [] && !IsWhitespace(s[0]) ==> ws != []
    decreases |s|
  {
    if s == [] then []
    else if IsWhitespace(s[0]) then Words(s[LeadingWhitespace(s)..])
    else
      var n := WordLength(s);
      [s[..n]] + Words(s[n..])
  }

  /** The words joined with single spaces. */
  function JoinWords(ws: seq<string>): (r: string)
    ensures ws != [] ==> |ws[0]| <= |r| && r[..|ws[0]|] == ws[0]
    decreases |ws|
  {
    if ws == [] then [] else if |ws| == 1 then ws[0] else ws[0] + " " + JoinWords(ws[1..])
  }

  /** Splitting joined words gives the words back. */
  lemma {:induction false} WordsOfJoin(ws: seq<string>)
    requires forall k :: 0 <= k < |ws| ==> IsWord(ws[k])
    ensures Words(JoinWords(ws)) == ws
    decreases |ws|
  {
    if ws != [] {
      var w := ws[0];
      assert IsWord(w);
      if |ws| == 1 {
        assert JoinWords(ws) == w + [];
        assert WordLength(w) == |w| by { WordLengthIs(w, |w|); }
        assert w[..|w|] == w && w[|w|..] == [];
      } else {
        var j := JoinWords(ws[1..]);
        var s := w + " " + j;
        assert IsWord(ws[1]);
        assert j[0] == ws[1][0];
        WordLengthIs(s, |w|);
        assert s[..|w|] == w;
        var u := s[|w|..];
        assert u == " " + j;
        LeadingWhitespaceIs(u, 1);
        assert u[1..] == j;
        WordsOfJoin(ws[1..]);
        assert ws == [w] + ws[1..];
      }
    }
  }

  /** The non-whitespace run that starts `s` is pinned by its two defining properties. */
  lemma WordLengthIs(s: string, n: nat)
    requires n <= |s| && forall i :: 0 <= i < n ==> !IsWhitespace(s[i])
    requires n < |s| ==> IsWhitespace(s[n])
    ensures WordLength(s) == n
  {
  }

  /** Trimming ignores a leading space. */
  lemma TrimAfterSpace(x: string)
    ensures Trim([' '] + x) == Trim(x)
  {
    assert ([' '] + x)[1..] == x;
  }

  /** Trimming a text that starts with non-whitespace only trims its end. */
  lemma TrimAfterWord(a: string, y: string)
    requires a != [] && !IsWhitespace(a[0]) && y != [] && !IsWhitespace(y[0])
    ensures Trim(a + y) == a + Trim(y)
  {
    var s := a + y;
    assert LeadingWhitespace(s) == 0 && LeadingWhitespace(y) == 0;
    var n := TrailingWhitespace(y);
    assert n < |y|;
    assert forall i :: |s| - n <= i < |s| ==> s[i] == y[i - |a|];
    assert s[|s| - n - 1] == y[|y| - n - 1];
    TrailingWhitespaceIs(s, n);
    assert s[0..] == s && y[0..] == y;
    assert s[..|s| - n] == a + y[..|y| - n];
  }

  /** Trimming a word followed by one space gives the word. */
  lemma TrimWordSpace(w: string)
    requires IsWord(w)
    ensures Trim(w + " ") == w
  {
    var s := w + " ";
    TrailingWhitespaceIs(s, 1);
    assert LeadingWhitespace(s) == 0;
    assert s[0..] == s && s[..|s| - 1] == w;
  }

  /** `s.replace(/\s+/g, ' ').trim()` is the words of `s` joined with single spaces. */
  lemma {:induction false} SqueezeIsJoinedWords(s: string)
    ensures Trim(ReplaceWhitespaceRuns(s, ' ')) == JoinWords(Words(s))
    decreases |s|
  {
    if s == [] {
    } else if IsWhitespace(s[0]) {
      var k := LeadingWhitespace(s);
      TrimAfterSpace(ReplaceWhitespaceRuns(s[k..], ' '));
      SqueezeIsJoinedWords(s[k..]);
    } else {
      var n := WordLength(s);
      var word := s[..n];
      assert IsWord(word);
      if n == |s| {
        WordAlone(s);
        TrimTrimmed(s);
      } else {
        var k := LeadingWhitespace(s[n..]);
        var u := s[n + k..];
        WordThenRest(s, n, k);
        SqueezeIsJoinedWords(u);
        if u == [] {
          assert ReplaceWhitespaceRuns(u, ' ') == [];
          assert word + " " + [] == word + " ";
          TrimWordSpace(word);
        } else {
          TrimAfterWord(word + " ", ReplaceWhitespaceRuns(u, ' '));
          assert ([word] + Words(u))[1..] == Words(u);
        }
      }
    }
  }

  /** A text that is one word is its own replacement and its own only word. */
  lemma WordAlone(s: string)
    requires s != [] && WordLength(s) == |s|
    ensures ReplaceWhitespaceRuns(s, ' ') == s && Words(s) == [s]
  {
    ReplaceRunsKeepWord(s, [], ' ');
    assert s + [] == s && s[..|s|] == s && s[|s|..] == [];
  }

  /** A text that starts with a word of length `n` and a whitespace run of length `k`. */
  lemma WordThenRest(s: string, n: nat, k: nat)
    requires s != [] && !IsWhitespace(s[0]) && n == WordLength(s) < |s|
    requires k == LeadingWhitespace(s[n..])
    ensures n + k <= |s|
    ensures ReplaceWhitespaceRuns(s, ' ') == s[..n] + " " + ReplaceWhitespaceRuns(s[n + k..], ' ')
    ensures Words(s) == [s[..n]] + Words(s[n + k..])
  {
    RunsAfterWord(s, n, k);
    WordsAfterWord(s, n, k);
  }

  lemma RunsAfterWord(s: string, n: nat, k: nat)
    requires s != [] && !IsWhitespace(s[0]) && n == WordLength(s) < |s|
    requires k == LeadingWhitespace(s[n..])
    ensures n + k <= |s|
    ensures ReplaceWhitespaceRuns(s, ' ') == s[..n] + " " + ReplaceWhitespaceRuns(s[n + k..], ' ')
  {
    var rest := s[n..];
    TakeDrop(s, n, k);
    ReplaceRunsKeepWord(s[..n], rest, ' ');
    RunsAtBlankStart(rest, ' ');
    AppendAssoc(s[..n], " ", ReplaceWhitespaceRuns(s[n + k..], ' '));
  }

  lemma WordsAfterWord(s: string, n: nat, k: nat)
    requires s != [] && !IsWhitespace(s[0]) && n == WordLength(s) < |s|
    requires k == LeadingWhitespace(s[n..])
    ensures n + k <= |s|
    ensures Words(s) == [s[..n]] + Words(s[n + k..])
  {
    var rest := s[n..];
    assert rest[k..] == s[n + k..];
    assert Words(rest) == Words(s[n + k..]);
  }

  /** Removing a character from a concatenation removes it from each part. */
  lemma {:induction false} RemoveCharConcat(a: string, b: string, c: char)
    ensures RemoveChar(a + b, c) == RemoveChar(a, c) + RemoveChar(b, c)
    decreases |a|
  {
    if a == [] {
      assert a + b == b;
    } else {
      var head := if a[0] == c then [] else [a[0]];
      calc {
        RemoveChar(a + b, c);
        { assert (a + b)[0] == a[0] && (a + b)[1..] == a[1..] + b; }
        head + RemoveChar(a[1..] + b, c);
        { RemoveCharConcat(a[1..], b, c); }
        head + (RemoveChar(a[1..], c) + RemoveChar(b, c));
        (head + RemoveChar(a[1..], c)) + RemoveChar(b, c);
        RemoveChar(a, c) + RemoveChar(b, c);
      }
    }
  }

  /** `s.replace(/c/g, d)` for a single character `c`. */
  function ReplaceChar(s: string, c: char, d: char): (r: string)
    ensures |r| == |s|
    ensures c != d ==> c !in r
    ensures c !in s ==> r == s
  {
    seq(|s|, i requires 0 <= i < |s| => if s[i] == c then d else s[i])
  }

  /** `s.replace(/c/g, '')` for a single character `c`. */
  function RemoveChar(s: string, c: char): (r: string)
    ensures |r| <= |s|
    ensures c !in r
    ensures forall x :: x in r ==> x in s
    ensures c !in s ==> r == s
    ensures IsWhitespace(c) ==> NonWhitespace(r) == NonWhitespace(s)
    decreases |s|
  {
    if s == [] then []
    else
      var rest := RemoveChar(s[1..], c);
      var head := if s[0] == c then [] else [s[0]];
      NonWhitespaceConcat(head, rest);
      assert s == [s[0]] + s[1..];
      NonWhitespaceConcat([s[0]], s[1..]);
      head + rest
  }

  function LowerChar(c: char): char {
    if 'A' <= c <= 'Z' then (c as int + 32) as char else c
  }

  /** `s.toLowerCase()` on the ASCII letters. */
  function ToLower(s: string): (r: string)
    ensures |r| == |s|
    ensures forall i :: 0 <= i < |r| ==> !('A' <= r[i] <= 'Z')
  {
    seq(|s|, i requires 0 <= i < |s| => LowerChar(s[i]))
  }

  /** A text without capital letters is its own lower case. */
  lemma LowerOfLower(s: string)
    requires forall i :: 0 <= i < |s| ==> !('A' <= s[i] <= 'Z')
    ensures ToLower(s) == s
  {
  }

  function Digit(d: nat): char
    requires d < 10
  {
    ('0' as int + d) as char
  }

  /** The decimal text of `n`, as a template literal `${n}` renders it. */
  function NatToString(n: nat): (r: string)
    ensures |r| > 0
    decreases n
  {
    if n < 10 then [Digit(n)] else NatToString(n / 10) + [Digit(n % 10)]
  }

  /** The pieces of a template literal, joined in order. */
  function Concat(parts: seq<string>): string
    decreases |parts|
  {
    if parts == [] then "" else parts[0] + Concat(parts[1..])
  }

  /** A text starts with anything it is built from on the left. */
  lemma StartsWithAppend(a: string, b: string)
    ensures StartsWith(a + b, a)
  {
    assert (a + b)[..|a|] == a;
  }

  /** A text ends with anything it is built from on the right. */
  lemma EndsWithAppend(a: string, b: string)
    ensures EndsWith(a + b, b)
  {
    assert (a + b)[|a|..] == b;
  }

  /** A text contains any middle piece it is built from. */
  lemma ContainsMiddle(a: string, b: string, c: string)
    ensures Contains(a + b + c, b)
  {
    assert (a + b + c)[|a|..|a| + |b|] == b;
    ContainsAt(a + b + c, b, |a|);
  }

  /** Texts framed by the same left and right parts are equal when the framed texts are. */
  lemma CancelFrame(p: string, x: string, y: string, q: string)
    requires p + x + q == p + y + q
    ensures x == y
  {
    assert |x| == |y|;
    assert x == (p + x + q)[|p|..|p| + |x|];
    assert y == (p + y + q)[|p|..|p| + |y|];
  }

  /** A text built as left, middle, right starts with the left, ends with the right, and has the middle between them. */
  lemma Framed(a: string, m: string, b: string)
    ensures StartsWith(a + m + b, a) && EndsWith(a + m + b, b)
    ensures (a + m + b)[|a|..|a + m + b| - |b|] == m
  {
    var t := a + m + b;
    assert t[..|a|] == a;
    assert t[|a + m|..] == b;
  }

  /** Any piece splits the joined text into what comes before it, the piece, and what comes after. */
  lemma {:induction false} ConcatSplit(parts: seq<string>, k: nat)
    requires k < |parts|
    ensures Concat(parts) == Concat(parts[..k]) + parts[k] + Concat(parts[k + 1..])
    decreases k
  {
    if k > 0 {
      var tail := parts[1..];
      ConcatSplit(tail, k - 1);
      assert tail[..k - 1] == parts[1..k] == parts[..k][1..];
      assert tail[k - 1] == parts[k];
      assert tail[k..] == parts[k + 1..];
      var x, y := Concat(parts[1..k]), Concat(parts[k + 1..]);
      assert Concat(tail) == x + parts[k] + y;
      assert Concat(parts[..k]) == parts[0] + x;
      calc {
        Concat(parts);
        parts[0] + Concat(tail);
        parts[0] + (x + parts[k] + y);
        (parts[0] + x) + parts[k] + y;
      }
    }
  }

  /** Every piece occurs in the joined text; the last one ends it. */
  lemma ConcatHas(parts: seq<string>, k: nat)
    requires k < |parts|
    ensures Contains(Concat(parts), parts[k])
    ensures k == |parts| - 1 ==> EndsWith(Concat(parts), parts[k])
  {
    ConcatSplit(parts, k);
    ContainsMiddle(Concat(parts[..k]), parts[k], Concat(parts[k + 1..]));
    if k == |parts| - 1 {
      assert parts[k + 1..] == [];
      assert Concat(parts) == Concat(parts[..k]) + parts[k];
      EndsWithAppend(Concat(parts[..k]), parts[k]);
    }
  }

  /** The joined text starts with its first piece. */
  lemma ConcatStartsWith(parts: seq<string>)
    requires |parts| >= 1
    ensures StartsWith(Concat(parts), parts[0])
  {
    StartsWithAppend(parts[0], Concat(parts[1..]));
  }

  /** The joined text starts with its first two pieces. */
  lemma ConcatStartsWithTwo(parts: seq<string>)
    requires |parts| >= 2
    ensures StartsWith(Concat(parts), parts[0] + parts[1])
  {
    var p0, p1, rest := parts[0], parts[1], Concat(parts[2..]);
    var tail := parts[1..];
    assert tail[1..] == parts[2..];
    assert Concat(tail) == p1 + rest;
    var c := Concat(parts);
    assert c == p0 + (p1 + rest);
    assert c[..|p0 + p1|] == p0 + p1;
  }

  /** Two joins that differ in one piece only are equal only when that piece is. */
  lemma ConcatCancel(p: seq<string>, q: seq<string>, k: nat)
    requires k < |p| == |q|
    requires p[..k] == q[..k] && p[k + 1..] == q[k + 1..]
    requires Concat(p) == Concat(q)
    ensures p[k] == q[k]
  {
    ConcatSplit(p, k);
    ConcatSplit(q, k);
    var x, y := Concat(p[..k]), Concat(p[k + 1..]);
    assert |p[k]| == |q[k]|;
    assert p[k] == Concat(p)[|x|..|x| + |p[k]|];
  }
}
