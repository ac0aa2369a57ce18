/**
 * The text transforms of `DocumentFetcher` (src/utils/document-fetcher.js):
 * `cleanContent`, `compressContent` and the budgeted summariser
 * `extractImportantContent`. Fetching and saving are not part of this model.
 */
module DocumentFetcher {
  import opened JsText

  /** The marker put between the pieces that extraction keeps. */
  const Ellipsis: string := "\n...\n"

  /** Every section is cut to this many characters when it is collected. */
  const SectionCap: nat := 1000

  // ---------------------------------------------------------------------------
  // Line-break handling shared by cleanContent and compressContent
  // ---------------------------------------------------------------------------

  /** No three consecutive line feeds anywhere in `s`. */
  predicate NoBlankRun(s: string) {
    forall i :: 0 <= i < |s| - 2 ==> !(s[i] == '\n' && s[i + 1] == '\n' && s[i + 2] == '\n')
  }

  /** Length of the run of line feeds that starts `s`. */
  function LeadingNewlines(s: string): (n: nat)
    ensures n <= |s|
    ensures forall i :: 0 <= i < n ==> s[i] == '\n'
    ensures n < |s| ==> s[n] != '\n'
    decreases |s|
  {
    if s != [] && s[0] == '\n' then 1 + LeadingNewlines(s[1..]) else 0
  }

  lemma NoBlankRunAfterRun(run: string, rest: string)
    requires |run| <= 2 && forall i :: 0 <= i < |run| ==> run[i] == '\n'
    requires rest == [] || rest[0] != '\n'
    requires NoBlankRun(rest)
    ensures NoBlankRun(run + rest)
  {
    var s := run + rest;
    forall i | 0 <= i < |s| - 2
      ensures !(s[i] == '\n' && s[i + 1] == '\n' && s[i + 2] == '\n')
    {
      if i >= |run| {
        assert s[i] == rest[i - |run|] && s[i + 1] == rest[i - |run| + 1] && s[i + 2] == rest[i - |run| + 2];
      } else if i + 1 == |run| {
        assert s[i + 1] == rest[0];
      } else {
        assert s[i + 2] == rest[0];
      }
    }
  }

  lemma NoBlankRunAfterChar(c: char, rest: string)
    requires c != '\n' && NoBlankRun(rest)
    ensures NoBlankRun([c] + rest)
  {
    var s := [c] + rest;
    forall i | 1 <= i < |s| - 2
      ensures !(s[i] == '\n' && s[i + 1] == '\n' && s[i + 2] == '\n')
    {
      assert s[i] == rest[i - 1] && s[i + 1] == rest[i] && s[i + 2] == rest[i + 1];
    }
  }

  /** A contiguous part of a text without blank runs has none either. */
  lemma NoBlankRunSlice(s: string, a: nat, b: nat)
    requires a <= b <= |s| && NoBlankRun(s)
    ensures NoBlankRun(s[a..b])
  {
    var t := s[a..b];
    forall i | 0 <= i < |t| - 2
      ensures !(t[i] == '\n' && t[i + 1] == '\n' && t[i + 2] == '\n')
    {
      assert t[i] == s[a + i] && t[i + 1] == s[a + i + 1] && t[i + 2] == s[a + i + 2];
    }
  }

  /** `s.replace(/\n{3,}/g, '\n\n')`: every run of three or more line feeds becomes two. */
  function CollapseBlankLines(s: string): (r: string)
    ensures |r| <= |s|
    ensures NoBlankRun(r)
    ensures forall c :: c in r ==> c in s
    ensures NonWhitespace(r) == NonWhitespace(s)
    ensures |s| > 0 ==> |r| > 0 && r[0] == s[0]
    ensures NoBlankRun(s) ==> r == s
    decreases |s|
  {
    if s == [] then []
    else if s[0] == '\n' then
      var k := LeadingNewlines(s);
      var run := if k >= 3 then "\n\n" else s[..k];
      var rest := CollapseBlankLines(s[k..]);
      CollapseRunStep(s, k, run, rest);
      run + rest
    else
      var rest := CollapseBlankLines(s[1..]);
      CollapseCharStep(s, rest);
      [s[0]] + rest
  }

  /** A run of `k` line feeds. */
  function Newlines(k: nat): (r: string)
    ensures |r| == k && forall i :: 0 <= i < k ==> r[i] == '\n'
  {
    seq(k, _ => '\n')
  }

  /** The line-feed run that starts `s` is pinned by its two defining properties. */
  lemma LeadingNewlinesIs(s: string, n: nat)
    requires n <= |s| && forall i :: 0 <= i < n ==> s[i] == '\n'
    requires n < |s| ==> s[n] != '\n'
    ensures LeadingNewlines(s) == n
  {
  }

  /**
   * The run law of `.replace(/\n{3,}/g, '\n\n')`: a whole run of `k` line
   * feeds (the text before it does not end with one, the text after it does
   * not start with one) is kept when `k <= 2` and becomes exactly two line
   * feeds otherwise, and the two sides are collapsed on their own.
   */
  lemma {:induction false} CollapseSplice(p: string, k: nat, q: string)
    requires p == [] || p[|p| - 1] != '\n'
    requires q == [] || q[0] != '\n'
    ensures CollapseBlankLines(p + Newlines(k) + q)
         == CollapseBlankLines(p) + Newlines(if k >= 3 then 2 else k) + CollapseBlankLines(q)
    decreases |p|
  {
    if p == [] {
      assert p + Newlines(k) + q == Newlines(k) + q;
      CollapseAtRun(k, q);
    } else if p[0] != '\n' {
      CollapseSplice(p[1..], k, q);
      CollapseSpliceStep(p, 1, k, q);
    } else {
      var j := LeadingNewlines(p);
      assert j < |p|;
      CollapseSplice(p[j..], k, q);
      CollapseSpliceStep(p, j, k, q);
    }
  }

  /** A text that starts with a whole run of `k` line feeds. */
  lemma CollapseAtRun(k: nat, q: string)
    requires q == [] || q[0] != '\n'
    ensures CollapseBlankLines(Newlines(k) + q) == Newlines(if k >= 3 then 2 else k) + CollapseBlankLines(q)
  {
    var s := Newlines(k) + q;
    if k == 0 {
      assert s == q;
    } else {
      LeadingNewlinesIs(s, k);
      assert s[k..] == q;
      assert s[..k] == Newlines(k);
      assert "\n\n" == Newlines(2);
    }
  }

  /**
   * One step of the run law: `p` starts with one kept character (`j == 1`)
   * or with a whole line-feed run of length `j`, and the law holds for the
   * text after it.
   */
  lemma CollapseSpliceStep(p: string, j: nat, k: nat, q: string)
    requires p != [] && j <= |p|
    requires p[0] != '\n' ==> j == 1
    requires p[0] == '\n' ==> j == LeadingNewlines(p) < |p|
    requires CollapseBlankLines(p[j..] + Newlines(k) + q)
          == CollapseBlankLines(p[j..]) + Newlines(if k >= 3 then 2 else k) + CollapseBlankLines(q)
    ensures CollapseBlankLines(p + Newlines(k) + q)
         == CollapseBlankLines(p) + Newlines(if k >= 3 then 2 else k) + CollapseBlankLines(q)
  {
    var s := p + Newlines(k) + q;
    var lead := if p[0] != '\n' then [p[0]] else if j >= 3 then "\n\n" else p[..j];
    DropFromFront(p, j, Newlines(k), q);
    if p[0] == '\n' {
      LeadingNewlinesIs(s, j);
      assert s[..j] == p[..j];
    }
    assert CollapseBlankLines(s) == lead + CollapseBlankLines(s[j..]);
    assert CollapseBlankLines(p) == lead + CollapseBlankLines(p[j..]);
    AppendRegroup(lead, CollapseBlankLines(p[j..]), Newlines(if k >= 3 then 2 else k), CollapseBlankLines(q));
  }

  /** A character other than a line feed is kept as it is. */
  lemma CollapseKeepsChar(c: char, q: string)
    requires c != '\n'
    ensures CollapseBlankLines([c] + q) == [c] + CollapseBlankLines(q)
  {
    assert ([c] + q)[1..] == q;
  }

  /** The step of `CollapseBlankLines` at a run of line feeds. */
  lemma CollapseRunStep(s: string, k: nat, run: string, rest: string)
    requires s != [] && s[0] == '\n' && k == LeadingNewlines(s)
    requires run == if k >= 3 then "\n\n" else s[..k]
    requires |rest| <= |s| - k && NoBlankRun(rest)
    requires forall c :: c in rest ==> c in s[k..]
    requires NonWhitespace(rest) == NonWhitespace(s[k..])
    requires |s| > k ==> |rest| > 0 && rest[0] == s[k]
    requires NoBlankRun(s[k..]) ==> rest == s[k..]
    ensures |run + rest| <= |s| && NoBlankRun(run + rest)
    ensures forall c :: c in run + rest ==> c in s
    ensures NonWhitespace(run + rest) == NonWhitespace(s)
    ensures (run + rest)[0] == s[0]
    ensures NoBlankRun(s) ==> run + rest == s
  {
    assert rest == [] || rest[0] != '\n' by {
      if |s| > k { assert rest[0] == s[k]; }
    }
    NoBlankRunAfterRun(run, rest);
    CollapseRunNonWhitespace(s, k, run, rest);
    CollapseRunChars(s, k, run, rest);
    if NoBlankRun(s) {
      CollapseRunIdentity(s, k, run, rest);
    }
  }

  lemma CollapseRunNonWhitespace(s: string, k: nat, run: string, rest: string)
    requires k <= |s| && forall i :: 0 <= i < k ==> s[i] == '\n'
    requires forall i :: 0 <= i < |run| ==> run[i] == '\n'
    requires NonWhitespace(rest) == NonWhitespace(s[k..])
    ensures NonWhitespace(run + rest) == NonWhitespace(s)
  {
    assert s == s[..k] + s[k..];
    NonWhitespaceConcat(s[..k], s[k..]);
    NonWhitespaceOfBlank(s[..k]);
    NonWhitespaceConcat(run, rest);
    NonWhitespaceOfBlank(run);
  }

  lemma CollapseRunChars(s: string, k: nat, run: string, rest: string)
    requires 1 <= k <= |s| && s[0] == '\n'
    requires forall i :: 0 <= i < |run| ==> run[i] == '\n'
    requires forall c :: c in rest ==> c in s[k..]
    ensures forall c :: c in run + rest ==> c in s
  {
    forall c | c in run + rest ensures c in s {
      if c in run {
        assert c == s[0];
      } else {
        assert c in s[k..];
      }
    }
  }

  lemma CollapseRunIdentity(s: string, k: nat, run: string, rest: string)
    requires s != [] && s[0] == '\n' && k == LeadingNewlines(s)
    requires run == if k >= 3 then "\n\n" else s[..k]
    requires NoBlankRun(s[k..]) ==> rest == s[k..]
    requires NoBlankRun(s)
    ensures run + rest == s
  {
    assert k <= 2 by {
      assert |s| >= 3 ==> !(s[0] == '\n' && s[1] == '\n' && s[2] == '\n');
    }
    NoBlankRunSuffix(s, k);
    assert s == s[..k] + s[k..];
  }

  lemma NoBlankRunSuffix(s: string, a: nat)
    requires a <= |s| && NoBlankRun(s)
    ensures NoBlankRun(s[a..])
  {
    NoBlankRunSlice(s, a, |s|);
    assert s[a..|s|] == s[a..];
  }

  /** The step of `CollapseBlankLines` at any other character. */
  lemma CollapseCharStep(s: string, rest: string)
    requires s != [] && s[0] != '\n'
    requires |rest| <= |s| - 1 && NoBlankRun(rest)
    requires forall c :: c in rest ==> c in s[1..]
    requires NonWhitespace(rest) == NonWhitespace(s[1..])
    requires NoBlankRun(s[1..]) ==> rest == s[1..]
    ensures NoBlankRun([s[0]] + rest)
    ensures forall c :: c in [s[0]] + rest ==> c in s
    ensures NonWhitespace([s[0]] + rest) == NonWhitespace(s)
    ensures NoBlankRun(s) ==> [s[0]] + rest == s
  {
    NoBlankRunAfterChar(s[0], rest);
    CollapseCharNonWhitespace(s, rest);
    CollapseCharChars(s, rest);
    if NoBlankRun(s) {
      CollapseCharIdentity(s, rest);
    }
  }

  lemma CollapseCharIdentity(s: string, rest: string)
    requires s != [] && NoBlankRun(s)
    requires NoBlankRun(s[1..]) ==> rest == s[1..]
    ensures [s[0]] + rest == s
  {
    NoBlankRunSlice(s, 1, |s|);
    assert s[1..|s|] == s[1..];
    assert s == [s[0]] + s[1..];
  }

  lemma CollapseCharNonWhitespace(s: string, rest: string)
    requires s != []
    requires NonWhitespace(rest) == NonWhitespace(s[1..])
    ensures NonWhitespace([s[0]] + rest) == NonWhitespace(s)
  {
    assert s == [s[0]] + s[1..];
    NonWhitespaceConcat([s[0]], s[1..]);
    NonWhitespaceConcat([s[0]], rest);
  }

  lemma CollapseCharChars(s: string, rest: string)
    requires s != []
    requires forall c :: c in rest ==> c in s[1..]
    ensures forall c :: c in [s[0]] + rest ==> c in s
  {
    forall c | c in [s[0]] + rest ensures c in s {
      if c != s[0] {
        assert c in rest;
        assert c in s[1..];
      }
    }
  }

  // ---------------------------------------------------------------------------
  // cleanContent
  // ---------------------------------------------------------------------------

  /** `s.replace(/\\n/g, '\n')`: a backslash followed by `n` becomes a line feed. */
  function UnescapeNewlines(s: string): (r: string)
    ensures |r| <= |s|
    decreases |s|
  {
    if s == [] then []
    else if |s| >= 2 && s[0] == '\\' && s[1] == 'n' then "\n" + UnescapeNewlines(s[2..])
    else [s[0]] + UnescapeNewlines(s[1..])
  }

  /** `s.replace(/\\r/g, '')`: a backslash followed by `r` is dropped. */
  function DropEscapedReturns(s: string): (r: string)
    ensures |r| <= |s|
    decreases |s|
  {
    if s == [] then []
    else if |s| >= 2 && s[0] == '\\' && s[1] == 'r' then DropEscapedReturns(s[2..])
    else [s[0]] + DropEscapedReturns(s[1..])
  }

  /** No backslash in `s` is immediately followed by `c`. */
  predicate NoEscape(s: string, c: char) {
    forall i :: 0 <= i < |s| - 1 ==> !(s[i] == '\\' && s[i + 1] == c)
  }

  /** Every escaped `\n` becomes a line feed, and the text around it is unescaped on its own. */
  lemma {:induction false} UnescapeSplice(a: string, b: string)
    ensures UnescapeNewlines(a + "\\n" + b) == UnescapeNewlines(a) + "\n" + UnescapeNewlines(b)
    decreases |a|
  {
    var s := a + "\\n" + b;
    if a == [] {
      assert s == "\\n" + b && s[2..] == b;
    } else {
      var j := if |a| >= 2 && a[0] == '\\' && a[1] == 'n' then 2 else 1;
      var lead := if j == 2 then "\n" else [a[0]];
      DropFromFront(a, j, "\\n", b);
      assert s[0] == a[0] && s[1] == (if |a| >= 2 then a[1] else '\\');
      assert UnescapeNewlines(s) == lead + UnescapeNewlines(s[j..]);
      assert UnescapeNewlines(a) == lead + UnescapeNewlines(a[j..]);
      UnescapeSplice(a[j..], b);
      AppendRegroup(lead, UnescapeNewlines(a[j..]), "\n", UnescapeNewlines(b));
    }
  }

  /** A text without an escaped `\n` is left as it is. */
  lemma {:induction false} UnescapeFree(s: string)
    requires NoEscape(s, 'n')
    ensures UnescapeNewlines(s) == s
    decreases |s|
  {
    if s != [] {
      assert NoEscape(s[1..], 'n') by {
        forall i | 0 <= i < |s| - 2 ensures !(s[1..][i] == '\\' && s[1..][i + 1] == 'n') {
          assert s[1..][i] == s[i + 1] && s[1..][i + 1] == s[i + 2];
        }
      }
      UnescapeFree(s[1..]);
      assert s == [s[0]] + s[1..];
    }
  }

  /** Every escaped `\r` is dropped, and the text around it is handled on its own. */
  lemma {:induction false} DropReturnsSplice(a: string, b: string)
    ensures DropEscapedReturns(a + "\\r" + b) == DropEscapedReturns(a) + DropEscapedReturns(b)
    decreases |a|
  {
    var s := a + "\\r" + b;
    if a == [] {
      assert s == "\\r" + b && s[2..] == b;
    } else {
      var j := if |a| >= 2 && a[0] == '\\' && a[1] == 'r' then 2 else 1;
      var lead := if j == 2 then [] else [a[0]];
      DropFromFront(a, j, "\\r", b);
      assert s[0] == a[0] && s[1] == (if |a| >= 2 then a[1] else '\\');
      assert DropEscapedReturns(s) == lead + DropEscapedReturns(s[j..]);
      assert DropEscapedReturns(a) == lead + DropEscapedReturns(a[j..]);
      DropReturnsSplice(a[j..], b);
      AppendAssoc(lead, DropEscapedReturns(a[j..]), DropEscapedReturns(b));
    }
  }

  /** A text without an escaped `\r` is left as it is. */
  lemma {:induction false} DropReturnsFree(s: string)
    requires NoEscape(s, 'r')
    ensures DropEscapedReturns(s) == s
    decreases |s|
  {
    if s != [] {
      assert NoEscape(s[1..], 'r') by {
        forall i | 0 <= i < |s| - 2 ensures !(s[1..][i] == '\\' && s[1..][i + 1] == 'r') {
          assert s[1..][i] == s[i + 1] && s[1..][i + 1] == s[i + 2];
        }
      }
      DropReturnsFree(s[1..]);
      assert s == [s[0]] + s[1..];
    }
  }

  /**
   * `cleanContent`: escaped and literal carriage returns removed, escaped
   * line feeds turned into real ones, blank runs cut to one empty line, trimmed.
   */
  function CleanContent(s: string): (r: string)
    ensures '\r' !in r
    ensures NoBlankRun(r)
    ensures r == [] || (!IsWhitespace(r[0]) && !IsWhitespace(r[|r| - 1]))
    ensures r == Trim(CompressContent(DropEscapedReturns(UnescapeNewlines(s)), false))
  {
    var lines := BasicCompression(DropEscapedReturns(UnescapeNewlines(s)));
    TrimKeepsLines(lines);
    Trim(lines)
  }

  /** Trimming adds no carriage return and no blank run. */
  lemma TrimKeepsLines(lines: string)
    requires '\r' !in lines && NoBlankRun(lines)
    ensures '\r' !in Trim(lines) && NoBlankRun(Trim(lines))
  {
    var r := Trim(lines);
    var a := LeadingWhitespace(lines);
    assert r == lines[a..a + |r|];
    NoBlankRunSlice(lines, a, a + |r|);
  }

  // ---------------------------------------------------------------------------
  // compressContent
  // ---------------------------------------------------------------------------

  /** Length of the run of spaces that starts `s`. */
  function LeadingSpaces(s: string): (n: nat)
    ensures n <= |s|
    ensures s != [] && s[0] == ' ' ==> n >= 1
    ensures |s| >= 2 && s[0] == ' ' && s[1] != ' ' ==> n == 1
    decreases |s|
  {
    if s != [] && s[0] == ' ' then 1 + LeadingSpaces(s[1..]) else 0
  }

  /** No two adjacent spaces in `s`. */
  predicate NoDoubleSpace(s: string) {
    forall i :: 0 <= i < |s| - 1 ==> !(s[i] == ' ' && s[i + 1] == ' ')
  }

  /** `s.replace(/ {2,}/g, ' ')`: every run of spaces becomes a single space. */
  function CollapseSpaceRuns(s: string): (r: string)
    ensures |r| <= |s|
    ensures NoDoubleSpace(s) ==> r == s
    decreases |s|
  {
    if s == [] then []
    else if s[0] == ' ' then
      var k := LeadingSpaces(s);
      assert NoDoubleSpace(s) ==> NoDoubleSpace(s[k..]) && k == 1 by {
        if NoDoubleSpace(s) {
          if |s| >= 2 { assert !(s[0] == ' ' && s[1] == ' '); }
          forall i | 0 <= i < |s[k..]| - 1
            ensures !(s[k..][i] == ' ' && s[k..][i + 1] == ' ')
          {
            assert s[k..][i] == s[k + i] && s[k..][i + 1] == s[k + i + 1];
          }
        }
      }
      assert NoDoubleSpace(s) ==> s == [' '] + s[1..];
      " " + CollapseSpaceRuns(s[k..])
    else
      assert NoDoubleSpace(s) ==> NoDoubleSpace(s[1..]) by {
        if NoDoubleSpace(s) {
          forall i | 0 <= i < |s[1..]| - 1
            ensures !(s[1..][i] == ' ' && s[1..][i + 1] == ' ')
          {
            assert s[1..][i] == s[i + 1] && s[1..][i + 1] == s[i + 2];
          }
        }
      }
      assert s == [s[0]] + s[1..];
      [s[0]] + CollapseSpaceRuns(s[1..])
  }

  /** Whitespace only as single spaces: what `replace(/\s+/g, ' ')` leaves. */
  predicate SingleSpaced(s: string) {
    && (forall i :: 0 <= i < |s| && IsWhitespace(s[i]) ==> s[i] == ' ')
    && (forall i :: 0 <= i < |s| - 1 ==> !(IsWhitespace(s[i]) && IsWhitespace(s[i + 1])))
  }

  /** A single-spaced text has no line feed, no tab and no double space. */
  lemma SingleSpacedFacts(s: string)
    requires SingleSpaced(s)
    ensures '\n' !in s && '\t' !in s && '\r' !in s
    ensures NoDoubleSpace(s)
  {
    forall i | 0 <= i < |s| ensures s[i] != '\n' && s[i] != '\t' && s[i] != '\r' {
      if IsWhitespace(s[i]) { assert s[i] == ' '; }
    }
    forall i | 0 <= i < |s| - 1 ensures !(s[i] == ' ' && s[i + 1] == ' ') {
      assert !(IsWhitespace(s[i]) && IsWhitespace(s[i + 1]));
    }
  }

  /** What the aggressive tier leaves: single spaces between words and nothing else. */
  predicate Compact(r: string) {
    SingleSpaced(r) && (r == [] || (!IsWhitespace(r[0]) && !IsWhitespace(r[|r| - 1])))
  }

  /** The basic tier: carriage returns removed and blank runs cut to one empty line. */
  function BasicCompression(s: string): (r: string)
    ensures |r| <= |s|
    ensures '\r' !in r && NoBlankRun(r)
    ensures NonWhitespace(r) == NonWhitespace(s)
    ensures '\r' !in s && NoBlankRun(s) ==> r == s
  {
    CollapseBlankLines(RemoveChar(s, '\r'))
  }

  /** The basic tier drops every carriage return. */
  lemma BasicDropsReturn(a: string, b: string)
    ensures BasicCompression(a + "\r" + b) == BasicCompression(a + b)
  {
    RemoveCharConcat(a + "\r", b, '\r');
    RemoveCharConcat(a, "\r", '\r');
    RemoveCharConcat(a, b, '\r');
    assert RemoveChar("\r", '\r') == [];
    assert RemoveChar(a, '\r') + [] == RemoveChar(a, '\r');
  }

  /** The basic tier keeps every character other than a line feed or a carriage return. */
  lemma BasicKeepsChar(c: char, q: string)
    requires c != '\n' && c != '\r'
    ensures BasicCompression([c] + q) == [c] + BasicCompression(q)
  {
    RemoveCharConcat([c], q, '\r');
    assert RemoveChar([c], '\r') == [c];
    CollapseKeepsChar(c, RemoveChar(q, '\r'));
  }

  /**
   * In a text without carriage returns, the basic tier keeps a run of one or
   * two line feeds and cuts a longer run to two; the two sides are
   * compressed on their own.
   */
  lemma BasicSplice(p: string, k: nat, q: string)
    requires '\r' !in p && '\r' !in q
    requires p == [] || p[|p| - 1] != '\n'
    requires q == [] || q[0] != '\n'
    ensures BasicCompression(p + Newlines(k) + q)
         == BasicCompression(p) + Newlines(if k >= 3 then 2 else k) + BasicCompression(q)
  {
    var s := p + Newlines(k) + q;
    assert '\r' !in s by {
      forall i | 0 <= i < |s| ensures s[i] != '\r' {
        if i < |p| { assert s[i] == p[i]; }
        else if i < |p| + k { assert s[i] == Newlines(k)[i - |p|]; }
        else { assert s[i] == q[i - |p| - k]; }
      }
    }
    CollapseSplice(p, k, q);
  }

  /** Trimming a single-spaced text gives a compact one. */
  lemma TrimSingleSpaced(s: string)
    requires SingleSpaced(s)
    ensures Compact(Trim(s))
  {
    var r := Trim(s);
    var a := LeadingWhitespace(s);
    assert forall i :: 0 <= i < |r| ==> r[i] == s[a + i];
  }

  /** The aggressive tier applied to the output of the basic one. */
  function AggressiveCompression(basic: string): (r: string)
    ensures |r| <= |basic|
    ensures Compact(r)
    ensures NonWhitespace(r) == NonWhitespace(basic)
    ensures r == JoinWords(Words(basic))
  {
    var spaced := ReplaceWhitespaceRuns(basic, ' ');
    var single := CollapseSpaceRuns(ReplaceChar(ReplaceChar(spaced, '\n', ' '), '\t', ' '));
    // the three later replacements find nothing left to replace
    SingleSpacedFacts(spaced);
    assert single == spaced;
    TrimSingleSpaced(spaced);
    SqueezeIsJoinedWords(basic);
    Trim(single)
  }

  /**
   * `compressContent(content, {aggressive})`: the basic tier always, then the
   * aggressive tier when asked for. Omitted options mean `aggressive == false`.
   */
  function CompressContent(s: string, aggressive: bool): (r: string)
    ensures |r| <= |s|
    ensures '\r' !in r && NoBlankRun(r)
    ensures NonWhitespace(r) == NonWhitespace(s)
    ensures aggressive ==> Compact(r) && '\n' !in r && '\t' !in r && NoDoubleSpace(r)
    ensures aggressive ==> r == JoinWords(Words(BasicCompression(s)))
    ensures !aggressive ==> r == BasicCompression(s)
  {
    var basic := BasicCompression(s);
    if aggressive then
      var r := AggressiveCompression(basic);
      SingleSpacedFacts(r);
      r
    else basic
  }

  /** The aggressive tier keeps every word, in order, and nothing else. */
  lemma AggressiveKeepsWords(basic: string)
    ensures Words(AggressiveCompression(basic)) == Words(basic)
  {
    WordsOfJoin(Words(basic));
  }

  /** Compressing twice with the same option is the same as compressing once. */
  lemma CompressIdempotent(s: string, aggressive: bool)
    ensures CompressContent(CompressContent(s, aggressive), aggressive) == CompressContent(s, aggressive)
  {
    var r := CompressContent(s, aggressive);
    assert RemoveChar(r, '\r') == r;
    assert BasicCompression(r) == r;
    if aggressive {
      SingleSpacedFacts(r);
      ReplaceWhitespaceRunsFixed(r, ' ');
      TrimTrimmed(r);
    }
  }

  // ---------------------------------------------------------------------------
  // extractImportantContent
  // ---------------------------------------------------------------------------

  /**
   * Heading offsets as the heading scan reports them: strictly increasing and
   * inside the text (every match starts with a character of the text).
   */
  predicate ValidHeadings(content: string, headings: seq<nat>) {
    && (forall i :: 0 <= i < |headings| ==> headings[i] < |content|)
    && (forall i, j :: 0 <= i < j < |headings| ==> headings[i] < headings[j])
  }

  /** Where section `i` ends: at the next heading, or at the end of the text. */
  function SectionEnd(content: string, headings: seq<nat>, i: nat): (e: nat)
    requires ValidHeadings(content, headings) && i < |headings|
    ensures headings[i] < e <= |content|
  {
    if i < |headings| - 1 then headings[i + 1] else |content|
  }

  /** Section `i` as collected: heading `i` up to the next heading, cut to `SectionCap`. */
  function Section(content: string, headings: seq<nat>, i: nat): (r: string)
    requires ValidHeadings(content, headings) && i < |headings|
    ensures 0 < |r| <= SectionCap
    ensures headings[i] + |r| <= SectionEnd(content, headings, i)
    ensures |r| == SectionCap || headings[i] + |r| == SectionEnd(content, headings, i)
    ensures r == content[headings[i]..headings[i] + |r|]
  {
    var h, e := headings[i], SectionEnd(content, headings, i);
    var r := Prefix(content[h..e], SectionCap);
    assert r == content[h..h + |r|];
    r
  }

  /** All sections, in heading order. */
  function Sections(content: string, headings: seq<nat>): (r: seq<string>)
    requires ValidHeadings(content, headings)
    ensures |r| == |headings|
    ensures forall i :: 0 <= i < |r| ==> r[i] == Section(content, headings, i)
  {
    seq(|headings|, i requires 0 <= i < |headings| => Section(content, headings, i))
  }

  /** `Math.floor(maxLength * 0.3)`, `* 0.6` and `* 0.4` on an integer budget. */
  function FirstCut(m: int): int { (3 * m) / 10 }
  function HeadCut(m: int): int { (6 * m) / 10 }
  function TailCut(m: int): int { (4 * m) / 10 }

  /** The fallback without headings: the first 60% of the budget, the marker, the last 40%. */
  function HeadAndTail(content: string, m: int): (r: string)
    ensures 0 <= m < |content| ==> |r| == HeadCut(m) + |Ellipsis| + TailCut(m)
    ensures 0 <= m < |content| ==>
      r == content[..HeadCut(m)] + Ellipsis + content[|content| - TailCut(m)..]
  {
    Prefix(content, HeadCut(m)) + Ellipsis + From(content, |content| - TailCut(m))
  }

  /** The text the middle sections add, each cut to `maxPer` and preceded by the marker. */
  function Joined(middle: seq<string>, maxPer: int): (r: string)
    decreases |middle|
  {
    if middle == [] then ""
    else Joined(middle[..|middle| - 1], maxPer) + Ellipsis + Prefix(middle[|middle| - 1], maxPer)
  }

  /** The state of the middle-section loop: text added, budget left, sections taken. */
  datatype Progress = Progress(text: string, remaining: int, taken: nat)

  /**
   * The middle-section loop run over `middle` from a budget of `budget`: it takes
   * sections in order and stops at the first one it meets with no budget left.
   */
  function MiddleRun(middle: seq<string>, maxPer: int, budget: int): (p: Progress)
    ensures p.taken <= |middle|
    ensures p.text == Joined(middle[..p.taken], maxPer)
    ensures |p.text| + p.remaining == budget
    ensures p.taken < |middle| ==> p.remaining <= 0
    ensures forall k :: 0 <= k < p.taken ==> budget - |Joined(middle[..k], maxPer)| > 0
    decreases |middle|
  {
    if middle == [] then Progress("", budget, 0)
    else
      var front := middle[..|middle| - 1];
      var p := MiddleRun(front, maxPer, budget);
      assert front[..p.taken] == middle[..p.taken];
      if p.remaining <= 0 then
        BudgetsCarry(front, middle, maxPer, budget, p.taken, false);
        p
      else
        BudgetsCarry(front, middle, maxPer, budget, p.taken, true);
        var piece := Prefix(middle[|middle| - 1], maxPer);
        assert middle[..p.taken + 1] == middle;
        Progress(p.text + Ellipsis + piece, p.remaining - (|piece| + |Ellipsis|), p.taken + 1)
  }

  /** The budget checks the loop passed over `front` hold over `middle` too, which extends it. */
  lemma BudgetsCarry(front: seq<string>, middle: seq<string>, maxPer: int, budget: int, t: nat, extra: bool)
    requires |middle| > 0 && front == middle[..|middle| - 1] && t <= |front|
    requires forall k :: 0 <= k < t ==> budget - |Joined(front[..k], maxPer)| > 0
    requires extra ==> budget - |Joined(front[..t], maxPer)| > 0
    ensures forall k :: 0 <= k < (if extra then t + 1 else t) ==> budget - |Joined(middle[..k], maxPer)| > 0
  {
    forall k | 0 <= k < (if extra then t + 1 else t)
      ensures budget - |Joined(middle[..k], maxPer)| > 0
    {
      assert front[..k] == middle[..k];
    }
  }

  /** Once the budget is used up the loop adds nothing more, whatever follows. */
  lemma {:induction false} MiddleRunHalts(middle: seq<string>, maxPer: int, budget: int, i: nat)
    requires i <= |middle| && MiddleRun(middle[..i], maxPer, budget).remaining <= 0
    ensures MiddleRun(middle, maxPer, budget) == MiddleRun(middle[..i], maxPer, budget)
    decreases |middle| - i
  {
    if i == |middle| {
      assert middle[..i] == middle;
    } else {
      assert MiddleRun(middle[..i + 1], maxPer, budget) == MiddleRun(middle[..i], maxPer, budget) by {
        var next := middle[..i + 1];
        assert next[..|next| - 1] == middle[..i];
        MiddleRunSpent(next, maxPer, budget);
      }
      MiddleRunHalts(middle, maxPer, budget, i + 1);
    }
  }

  /** One more section after the budget is used up changes nothing. */
  lemma MiddleRunSpent(next: seq<string>, maxPer: int, budget: int)
    requires |next| > 0 && MiddleRun(next[..|next| - 1], maxPer, budget).remaining <= 0
    ensures MiddleRun(next, maxPer, budget) == MiddleRun(next[..|next| - 1], maxPer, budget)
  {
  }

  /** `sections.slice(1, -1)`. */
  function MiddleSections(sections: seq<string>): seq<string> {
    if |sections| >= 2 then sections[1..|sections| - 1] else []
  }

  /** The first section cut to 30% of the budget. */
  function FirstPiece(sections: seq<string>, m: int): string
    requires |sections| > 0
  {
    Prefix(sections[0], FirstCut(m))
  }

  /** The middle-section loop as the combine step runs it. */
  function MiddleProgress(sections: seq<string>, m: int): Progress
    requires |sections| > 0
  {
    var budget := m - |FirstPiece(sections, m)|;
    var middle := MiddleSections(sections);
    if |middle| > 0 && budget > 0 then MiddleRun(middle, budget / (2 * |middle|), budget)
    else Progress("", budget, 0)
  }

  /** Whether the combine step appends the last section. */
  predicate LastAppended(sections: seq<string>, m: int)
    requires |sections| > 0
  {
    |sections| > 1 && MiddleProgress(sections, m).remaining > 0
  }

  /** The combine step: first section, middle sections while budget lasts, last section. */
  function Combine(sections: seq<string>, m: int): (r: string)
    requires |sections| > 0
    ensures |FirstPiece(sections, m)| <= |r| && r[..|FirstPiece(sections, m)|] == FirstPiece(sections, m)
    ensures |sections| == 1 ==> r == FirstPiece(sections, m)
    ensures LastAppended(sections, m) ==> |r| <= m + |Ellipsis|
    ensures !LastAppended(sections, m) ==> |r| + MiddleProgress(sections, m).remaining == m
  {
    var first := FirstPiece(sections, m);
    var mid := MiddleProgress(sections, m);
    if LastAppended(sections, m)
    then first + mid.text + Ellipsis + Prefix(sections[|sections| - 1], mid.remaining)
    else first + mid.text
  }

  /** What `extractImportantContent(content, m)` returns, given the heading offsets. */
  function Extracted(content: string, m: int, headings: seq<nat>): string
    requires ValidHeadings(content, headings)
  {
    if |content| <= m then content
    else if |headings| == 0 then HeadAndTail(content, m)
    else Combine(Sections(content, headings), m)
  }

  /** Only the last piece the loop took can carry it past its budget. */
  lemma MiddleRunLastPiece(middle: seq<string>, maxPer: int, budget: int)
    requires maxPer >= 0 && MiddleRun(middle, maxPer, budget).taken >= 1
    ensures |MiddleRun(middle, maxPer, budget).text| < budget + |Ellipsis| + maxPer
    ensures |middle| == 1 ==> |MiddleRun(middle, maxPer, budget).text| <= |Ellipsis| + maxPer
  {
    var t := MiddleRun(middle, maxPer, budget).taken;
    assert middle[..t][..t - 1] == middle[..t - 1];
    assert budget - |Joined(middle[..t - 1], maxPer)| > 0;
    if |middle| == 1 {
      assert middle[..t - 1] == [];
    }
  }

  /** A product with a non-negative factor grows with the other factor. */
  lemma {:induction false} MulAtLeast(a: nat, k: int)
    requires k >= 1
    ensures a * k >= a
    decreases k
  {
    if k > 1 {
      MulAtLeast(a, k - 1);
      assert a * k == a * (k - 1) + a;
    }
  }

  /** An equal share of a non-negative budget is non-negative and no larger than the budget. */
  lemma ShareBounds(b: int, d: int)
    requires b >= 0 && d > 0
    ensures 0 <= b / d <= b
  {
    var q, r := b / d, b % d;
    assert b == q * d + r && 0 <= r < d;
    if q >= 1 {
      MulAtLeast(q, d);
    }
  }

  /** Splitting part of a budget over two or more sections gives each at most a quarter of the whole. */
  lemma ShareOfTwoOrMore(b: int, c: int, n: int)
    requires 0 <= b <= c && n >= 2
    ensures b / (2 * n) <= c / 4
  {
    var q := b / (2 * n);
    ShareBounds(b, 2 * n);
    assert q * (2 * n) <= b by {
      assert b == q * (2 * n) + b % (2 * n);
    }
    assert 4 * q <= q * (2 * n) by {
      if n > 2 {
        MulAtLeast(q, 2 * n - 4);
        assert q * (2 * n) == q * (2 * n - 4) + 4 * q;
      }
    }
  }

  /** The middle loop overshoots its budget by at most a quarter of the whole budget plus one marker. */
  lemma MiddleOvershoot(sections: seq<string>, m: int)
    requires |sections| > 0 && m >= 0
    ensures MiddleProgress(sections, m).remaining >= -(m / 4 + |Ellipsis|)
  {
    var budget := m - |FirstPiece(sections, m)|;
    var middle := MiddleSections(sections);
    if |middle| > 0 && budget > 0 {
      var maxPer := budget / (2 * |middle|);
      var p := MiddleRun(middle, maxPer, budget);
      ShareBounds(budget, 2 * |middle|);
      if p.taken >= 1 {
        MiddleRunLastPiece(middle, maxPer, budget);
        if |middle| > 1 {
          ShareOfTwoOrMore(budget, m, |middle|);
        }
      }
    }
  }

  /** The combine step overshoots its budget by at most a quarter of it plus one marker. */
  lemma CombineBound(sections: seq<string>, m: int)
    requires |sections| > 0 && m >= 0
    ensures |Combine(sections, m)| <= m + m / 4 + |Ellipsis|
  {
    MiddleOvershoot(sections, m);
  }

  /** Extraction from a text over budget stays within a quarter of the budget plus one marker of it. */
  lemma ExtractedLength(content: string, m: int, headings: seq<nat>)
    requires ValidHeadings(content, headings) && 0 <= m < |content|
    ensures |Extracted(content, m, headings)| <= m + m / 4 + |Ellipsis|
  {
    if |headings| > 0 {
      CombineBound(Sections(content, headings), m);
    }
  }

  /** Over budget and with headings, the output opens with the text at the first heading. */
  lemma ExtractedOpensAtFirstHeading(content: string, m: int, headings: seq<nat>)
    requires ValidHeadings(content, headings) && |headings| > 0 && |content| > m
    ensures var k := |FirstPiece(Sections(content, headings), m)|;
      var r := Extracted(content, m, headings);
      k <= |r| && headings[0] + k <= |content| && r[..k] == content[headings[0]..headings[0] + k]
  {
    var sections := Sections(content, headings);
    var k := |FirstPiece(sections, m)|;
    assert sections[0] == Section(content, headings, 0);
    assert content[headings[0]..headings[0] + |sections[0]|][..k] == content[headings[0]..headings[0] + k];
  }

  /** With a single heading the output is that section cut to 30% of the budget. */
  lemma ExtractedSingleHeading(content: string, m: int, headings: seq<nat>)
    requires ValidHeadings(content, headings) && |headings| == 1 && |content| > m
    ensures Extracted(content, m, headings) == Prefix(Prefix(content[headings[0]..], SectionCap), FirstCut(m))
  {
    var sections := Sections(content, headings);
    assert content[headings[0]..|content|] == content[headings[0]..];
    assert sections[0] == Prefix(content[headings[0]..], SectionCap);
  }

  /** A slice read through a suffix that contains it. */
  lemma SliceOfSuffix(s: string, a: nat, i: nat, e: nat)
    requires a <= i <= e <= |s|
    ensures s[i..e] == s[a..][i - a..e - a]
  {
  }

  /**
   * Text before the first heading never reaches the output: two texts of the same
   * length that agree from the first heading on give the same extraction.
   */
  lemma PreambleIgnored(content: string, other: string, m: int, headings: seq<nat>)
    requires ValidHeadings(content, headings) && |headings| > 0 && |content| > m
    requires |other| == |content| && other[headings[0]..] == content[headings[0]..]
    ensures ValidHeadings(other, headings)
    ensures Extracted(other, m, headings) == Extracted(content, m, headings)
  {
    var h := headings;
    forall i | 0 <= i < |h|
      ensures Section(other, h, i) == Section(content, h, i)
    {
      var e := SectionEnd(content, h, i);
      assert h[0] <= h[i] <= e <= |content|;
      SliceOfSuffix(other, h[0], h[i], e);
      SliceOfSuffix(content, h[0], h[i], e);
    }
    assert Sections(other, h) == Sections(content, h);
  }

  /** A heading-free text of 20000 characters under the 8000 budget comes out at 8005 characters. */
  lemma HeadAndTailExample(content: string)
    requires |content| == 20000
    ensures |Extracted(content, 8000, [])| == 8005
  {
  }

  /** The section-collecting loop of `extractImportantContent`. */
  method CollectSections(content: string, headings: seq<nat>) returns (sections: seq<string>)
    requires ValidHeadings(content, headings)
    ensures sections == Sections(content, headings)
  {
    sections := [];
    for i := 0 to |headings|
      invariant |sections| == i
      invariant forall k :: 0 <= k < i ==> sections[k] == Section(content, headings, k)
    {
      var start := headings[i];
      var end := if i < |headings| - 1 then headings[i + 1] else |content|;
      var sectionContent := Prefix(content[start..end], SectionCap);
      sections := sections + [sectionContent];
    }
  }

  /** The middle-section loop of `extractImportantContent`, with its early `break`. */
  method TakeMiddle(middle: seq<string>, maxPerSection: int, budget: int)
    returns (text: string, remaining: int)
    ensures text == MiddleRun(middle, maxPerSection, budget).text
    ensures remaining == MiddleRun(middle, maxPerSection, budget).remaining
  {
    text := "";
    remaining := budget;
    var i := 0;
    while i < |middle|
      invariant 0 <= i <= |middle|
      invariant MiddleRun(middle[..i], maxPerSection, budget) == Progress(text, remaining, i)
    {
      if remaining <= 0 {
        MiddleRunHalts(middle, maxPerSection, budget, i);
        return;
      }
      var trimmedSection := Prefix(middle[i], maxPerSection);
      assert middle[..i + 1][..i] == middle[..i];
      text := text + Ellipsis + trimmedSection;
      remaining := remaining - (|trimmedSection| + |Ellipsis|);
      i := i + 1;
    }
    assert middle[..i] == middle;
  }

  /**
   * `extractImportantContent(content, maxLength)`, with the offsets the heading
   * scan would find passed in as `headings`.
   */
  method ExtractImportantContent(content: string, maxLength: int, headings: seq<nat>)
    returns (r: string)
    requires ValidHeadings(content, headings)
    ensures r == Extracted(content, maxLength, headings)
  {
    if |content| <= maxLength {
      return content;
    }
    var sections := CollectSections(content, headings);
    if |sections| == 0 {
      var beginning := Prefix(content, HeadCut(maxLength));
      var end := From(content, |content| - TailCut(maxLength));
      return beginning + Ellipsis + end;
    }

    var firstSection := Prefix(sections[0], FirstCut(maxLength));
    var result := firstSection;
    var remaining := maxLength - |firstSection|;
    var middle := if |sections| >= 2 then sections[1..|sections| - 1] else [];
    assert firstSection == FirstPiece(sections, maxLength) && middle == MiddleSections(sections);
    ghost var mid := MiddleProgress(sections, maxLength);
    if |middle| > 0 && remaining > 0 {
      var text;
      text, remaining := TakeMiddle(middle, remaining / (2 * |middle|), remaining);
      result := result + text;
    }
    assert result == firstSection + mid.text && remaining == mid.remaining;
    if |sections| > 1 && remaining > 0 {
      var lastSection := Prefix(sections[|sections| - 1], remaining);
      result := result + Ellipsis + lastSection;
    }
    return result;
  }
}
