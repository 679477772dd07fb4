/**
 * Character and string operations the agent's Python code relies on: `str.lower`,
 * `in` on strings, `str.strip`, `str.split`, `' '.join`, slicing, and the regex
 * `\w` runs used by `re.findall`. Character classes cover ASCII and the Polish
 * letters the agent's phrase lists use.
 */
module Text {
  import opened Wrappers

  /** Whitespace as `str.split()`, `str.strip()` and regex `\s` treat it: the characters `str.isspace` accepts. */
  predicate IsSpace(c: char) {
    || ('\t' <= c <= '\r') || ('\U{1C}' <= c <= ' ') || c == '\U{85}' || c == '\U{A0}' || c == '\U{1680}'
    || ('\U{2000}' <= c <= '\U{200A}') || c == '\U{2028}' || c == '\U{2029}' || c == '\U{202F}'
    || c == '\U{205F}' || c == '\U{3000}'
  }

  const PolishLetters: set<char> :=
    {'ą', 'ć', 'ę', 'ł', 'ń', 'ó', 'ś', 'ź', 'ż', 'Ą', 'Ć', 'Ę', 'Ł', 'Ń', 'Ó', 'Ś', 'Ź', 'Ż'}

  /** Regex `\w`: letters, digits and underscore. */
  predicate IsWordChar(c: char) {
    ('a' <= c <= 'z') || ('A' <= c <= 'Z') || ('0' <= c <= '9') || c == '_' || c in PolishLetters
  }

  /** `str.lower` on one character. */
  function LowerChar(c: char): char {
    if 'A' <= c <= 'Z' then (c as int + 32) as char
    else if c == 'Ą' then 'ą'
    else if c == 'Ć' then 'ć'
    else if c == 'Ę' then 'ę'
    else if c == 'Ł' then 'ł'
    else if c == 'Ń' then 'ń'
    else if c == 'Ó' then 'ó'
    else if c == 'Ś' then 'ś'
    else if c == 'Ź' then 'ź'
    else if c == 'Ż' then 'ż'
    else c
  }

  function Lower(s: string): string {
    seq(|s|, i requires 0 <= i < |s| => LowerChar(s[i]))
  }

  /** `pat` occurs in `s` starting at index `k`. */
  predicate OccursAt(s: string, pat: string, k: int) {
    0 <= k && k + |pat| <= |s| && s[k..k + |pat|] == pat
  }

  /** Python's `pat in s` on strings. */
  predicate Contains(s: string, pat: string) {
    exists k | 0 <= k <= |s| - |pat| :: OccursAt(s, pat, k)
  }

  /** Python's `any(t in s for t in terms)`. */
  predicate ContainsAny(s: string, terms: seq<string>) {
    exists i | 0 <= i < |terms| :: Contains(s, terms[i])
  }

  lemma ContainsAt(s: string, pat: string, k: int)
    requires OccursAt(s, pat, k)
    ensures Contains(s, pat)
  {
  }

  /** A string contains every string that is written into it. */
  lemma ContainsInfix(a: string, p: string, b: string)
    ensures Contains(a + p + b, p)
  {
    var s := a + p + b;
    assert s[|a|..|a| + |p|] == p;
    ContainsAt(s, p, |a|);
  }

  /** Leftmost occurrence of `pat` at or after `from`: `str.find`, and where `re.search` starts. */
  function IndexOf(s: string, pat: string, from: nat): (r: Option<nat>)
    ensures r.Some? ==> from <= r.value && OccursAt(s, pat, r.value)
    ensures r.Some? ==> forall k :: from <= k < r.value ==> !OccursAt(s, pat, k)
    ensures r.None? ==> forall k :: from <= k ==> !OccursAt(s, pat, k)
    decreases |s| - from
  {
    if from + |pat| > |s| then None
    else if s[from..from + |pat|] == pat then Some(from)
    else IndexOf(s, pat, from + 1)
  }

  /** Python's `s[:n]` for `n >= 0`. */
  function Take(s: string, n: nat): (r: string)
    ensures |r| <= n && |r| <= |s| && r == s[..|r|]
    ensures |s| <= n ==> r == s
    ensures n <= |s| ==> |r| == n
  {
    if |s| <= n then s else s[..n]
  }

  /** Python's `xs[:n]` for any integer `n` (a negative `n` drops elements from the end). */
  function SliceTo<T>(xs: seq<T>, n: int): (r: seq<T>)
    ensures |r| <= |xs| && r == xs[..|r|]
    ensures 0 <= n ==> |r| == if n < |xs| then n else |xs|
    ensures n < 0 ==> |r| == if |xs| + n > 0 then |xs| + n else 0
  {
    if n >= 0 then (if n < |xs| then xs[..n] else xs)
    else if |xs| + n > 0 then xs[..|xs| + n]
    else []
  }

  function StripLeading(s: string): (r: string)
    ensures |r| <= |s| && r == s[|s| - |r|..]
    ensures forall i :: 0 <= i < |s| - |r| ==> IsSpace(s[i])
    ensures r == [] || !IsSpace(r[0])
  {
    if s != [] && IsSpace(s[0]) then StripLeading(s[1..]) else s
  }

  function StripTrailing(s: string): (r: string)
    ensures |r| <= |s| && r == s[..|r|]
    ensures forall i :: |r| <= i < |s| ==> IsSpace(s[i])
    ensures r == [] || !IsSpace(r[|r| - 1])
  {
    if s != [] && IsSpace(s[|s| - 1]) then StripTrailing(s[..|s| - 1]) else s
  }

  /** `r` is `s[i..i + |r|]` and everything of `s` around it is whitespace. */
  predicate TrimmedAt(s: string, r: string, i: int) {
    0 <= i <= |s| - |r| && r == s[i..i + |r|]
    && (forall k :: 0 <= k < i ==> IsSpace(s[k]))
    && (forall k :: i + |r| <= k < |s| ==> IsSpace(s[k]))
  }

  /** `str.strip()`: the middle of `s` between two all-whitespace ends. */
  function Strip(s: string): (r: string)
    ensures r == [] || (!IsSpace(r[0]) && !IsSpace(r[|r| - 1]))
    ensures exists i :: TrimmedAt(s, r, i)
  {
    var l := StripLeading(s);
    var r := StripTrailing(l);
    assert TrimmedAt(s, r, |s| - |l|);
    r
  }

  lemma StripLeadingBeforeWord(x: string, t: string)
    requires t != [] && !IsSpace(t[0])
    ensures StripLeading(x + t) == StripLeading(x) + t
    decreases |x|
  {
    if x == [] {
      assert x + t == t;
    } else if IsSpace(x[0]) {
      assert (x + t)[1..] == x[1..] + t;
      StripLeadingBeforeWord(x[1..], t);
    }
  }

  /** Stripping leaves alone a suffix that starts and ends with a non-space. */
  lemma StripKeepsSuffix(x: string, t: string)
    requires t != [] && !IsSpace(t[0]) && !IsSpace(t[|t| - 1])
    ensures Strip(x + t) == StripLeading(x) + t
  {
    StripLeadingBeforeWord(x, t);
    var l := StripLeading(x) + t;
    assert l[|l| - 1] == t[|t| - 1];
    StripTrailingAfterWord(l);
  }

  lemma StripTrailingAfterWord(l: string)
    requires l != [] && !IsSpace(l[|l| - 1])
    ensures StripTrailing(l) == l
  {
  }

  /** The longest prefix of `s` without whitespace. */
  function Token(s: string): (t: string)
    ensures |t| <= |s| && t == s[..|t|]
    ensures forall i :: 0 <= i < |t| ==> !IsSpace(t[i])
    ensures |t| == |s| || IsSpace(s[|t|])
  {
    if s == [] || IsSpace(s[0]) then [] else [s[0]] + Token(s[1..])
  }

  /** A word of `str.split()`: non-empty, no whitespace. */
  predicate IsWord(w: string) {
    w != [] && forall i :: 0 <= i < |w| ==> !IsSpace(w[i])
  }

  /** `str.split()` with no argument: the maximal whitespace-free runs, in order. */
  function Words(s: string): (ws: seq<string>)
    ensures forall i :: 0 <= i < |ws| ==> IsWord(ws[i])
    decreases |s|
  {
    if s == [] then []
    else if IsSpace(s[0]) then Words(s[1..])
    else var t := Token(s); [t] + Words(s[|t|..])
  }

  /** `sep.join(ws)`. */
  function Join(ws: seq<string>, sep: string): string {
    if ws == [] then ""
    else if |ws| == 1 then ws[0]
    else ws[0] + sep + Join(ws[1..], sep)
  }

  function JoinWords(ws: seq<string>): string {
    Join(ws, " ")
  }

  lemma {:induction false} TokenBeforeBreak(x: string, y: string)
    requires y == [] || IsSpace(y[0])
    ensures Token(x + y) == Token(x)
    decreases |x|
  {
    if x == [] {
      assert x + y == y;
    } else if !IsSpace(x[0]) {
      assert (x + y)[1..] == x[1..] + y;
      TokenBeforeBreak(x[1..], y);
    }
  }

  lemma {:induction false} TokenOfWord(w: string)
    requires forall i :: 0 <= i < |w| ==> !IsSpace(w[i])
    ensures Token(w) == w
    decreases |w|
  {
    if w != [] {
      TokenOfWord(w[1..]);
    }
  }

  lemma WordsOfWord(w: string)
    requires IsWord(w)
    ensures Words(w) == [w]
  {
    TokenOfWord(w);
    assert w[|w|..] == [];
  }

  lemma WordsOfTwo(a: string, b: string)
    requires IsWord(a) && IsWord(b)
    ensures Words(a + " " + b) == [a, b]
  {
    WordsAroundSpace(a, b);
    WordsOfWord(a);
    WordsOfWord(b);
  }

  lemma WordsThenWord(x: string, w: string)
    requires IsWord(w)
    ensures Words(x + " " + w) == Words(x) + [w]
  {
    WordsAroundSpace(x, w);
    WordsOfWord(w);
  }

  lemma WordsThenTwo(x: string, a: string, b: string)
    requires IsWord(a) && IsWord(b)
    ensures Words(x + " " + a + " " + b) == Words(x) + [a, b]
  {
    assert x + " " + a + " " + b == x + " " + (a + " " + b);
    WordsAroundSpace(x, a + " " + b);
    WordsOfTwo(a, b);
  }

  /** A space separates words: splitting `x + " " + y` splits `x` and `y` apart. */
  lemma {:induction false} WordsAroundSpace(x: string, y: string)
    ensures Words(x + " " + y) == Words(x) + Words(y)
    decreases |x|
  {
    var s := x + " " + y;
    if x == [] {
      assert s[1..] == y;
    } else if IsSpace(x[0]) {
      assert s[1..] == x[1..] + " " + y;
      WordsAroundSpace(x[1..], y);
    } else {
      var t := Token(x);
      WordsAroundSpace(x[|t|..], y);
      FirstTokenAroundSpace(x, y);
      ConsAssoc(t, Words(x[|t|..]), Words(y));
    }
  }

  /** The first token of `x` is the first word both of `x` and of `x + " " + y`. */
  lemma FirstTokenAroundSpace(x: string, y: string)
    requires x != [] && !IsSpace(x[0])
    ensures Words(x + " " + y) == [Token(x)] + Words(x[|Token(x)|..] + " " + y)
    ensures Words(x) == [Token(x)] + Words(x[|Token(x)|..])
  {
    var t := Token(x);
    var sy := " " + y;
    assert x + " " + y == x + sy;
    TokenBeforeBreak(x, sy);
    SliceOfAppend(x, sy, |t|);
    assert x[|t|..] + sy == x[|t|..] + " " + y;
    WordsOfTokenStart(x + sy);
    WordsOfTokenStart(x);
  }

  lemma ConsAssoc(t: string, a: seq<string>, b: seq<string>)
    ensures [t] + (a + b) == ([t] + a) + b
  {
  }

  lemma SliceOfAppend(a: string, b: string, n: nat)
    requires n <= |a|
    ensures (a + b)[n..] == a[n..] + b
  {
  }

  lemma WordsOfTokenStart(s: string)
    requires s != [] && !IsSpace(s[0])
    ensures Words(s) == [Token(s)] + Words(s[|Token(s)|..])
  {
  }

  /** Joining words with single spaces and splitting again gives the words back. */
  lemma {:induction false} WordsOfJoin(ws: seq<string>)
    requires forall i :: 0 <= i < |ws| ==> IsWord(ws[i])
    ensures Words(JoinWords(ws)) == ws
  {
    if |ws| == 1 {
      WordsOfWord(ws[0]);
    } else if |ws| > 1 {
      WordsAroundSpace(ws[0], JoinWords(ws[1..]));
      WordsOfWord(ws[0]);
      WordsOfJoin(ws[1..]);
    }
  }

  lemma {:induction false} WordsOfSpaces(sp: string)
    requires forall i :: 0 <= i < |sp| ==> IsSpace(sp[i])
    ensures Words(sp) == []
    decreases |sp|
  {
    if sp != [] {
      WordsOfSpaces(sp[1..]);
    }
  }

  lemma {:induction false} WordsBeforeSpaces(x: string, sp: string)
    requires forall i :: 0 <= i < |sp| ==> IsSpace(sp[i])
    ensures Words(x + sp) == Words(x)
    decreases |x|
  {
    var s := x + sp;
    if x == [] {
      assert s == sp;
      WordsOfSpaces(sp);
    } else if IsSpace(x[0]) {
      assert s[1..] == x[1..] + sp;
      WordsBeforeSpaces(x[1..], sp);
    } else {
      var t := Token(x);
      TokenBeforeBreak(x, sp);
      assert s[|t|..] == x[|t|..] + sp;
      WordsBeforeSpaces(x[|t|..], sp);
    }
  }

  lemma {:induction false} WordsAfterSpaces(sp: string, x: string)
    requires forall i :: 0 <= i < |sp| ==> IsSpace(sp[i])
    ensures Words(sp + x) == Words(x)
    decreases |sp|
  {
    if sp != [] {
      assert (sp + x)[1..] == sp[1..] + x;
      WordsAfterSpaces(sp[1..], x);
    } else {
      assert sp + x == x;
    }
  }

  /** Stripping never changes the words of a string. */
  lemma WordsOfStrip(s: string)
    ensures Words(Strip(s)) == Words(s)
  {
    var r := Strip(s);
    var i :| TrimmedAt(s, r, i);
    WordsOfTrimmed(s, r, i);
  }

  lemma WordsOfTrimmed(s: string, r: string, i: int)
    requires TrimmedAt(s, r, i)
    ensures Words(r) == Words(s)
  {
    var pre, post := s[..i], s[i + |r|..];
    assert s == pre + (r + post);
    assert forall k :: 0 <= k < |pre| ==> pre[k] == s[k];
    assert forall k :: 0 <= k < |post| ==> post[k] == s[i + |r| + k];
    WordsAfterSpaces(pre, r + post);
    WordsBeforeSpaces(r, post);
  }

  /** The longest prefix of `s` made of `\w` characters. */
  function WordCharRun(s: string): (t: string)
    ensures |t| <= |s| && t == s[..|t|]
    ensures forall i :: 0 <= i < |t| ==> IsWordChar(t[i])
    ensures |t| == |s| || !IsWordChar(s[|t|])
  {
    if s == [] || !IsWordChar(s[0]) then [] else [s[0]] + WordCharRun(s[1..])
  }

  /** The maximal runs of `\w` characters, in order: what `re.findall(r'\b\w+\b', s)` returns. */
  function WordCharRuns(s: string): (ws: seq<string>)
    ensures forall i :: 0 <= i < |ws| ==> ws[i] != [] && forall k :: 0 <= k < |ws[i]| ==> IsWordChar(ws[i][k])
    decreases |s|
  {
    if s == [] then []
    else if !IsWordChar(s[0]) then WordCharRuns(s[1..])
    else var t := WordCharRun(s); [t] + WordCharRuns(s[|t|..])
  }

  /** The elements of `ws` longer than `n`, in order (a list comprehension with `len(w) > n`). */
  function LongerThan(ws: seq<string>, n: nat): (r: seq<string>)
    ensures forall i :: 0 <= i < |r| ==> |r[i]| > n && r[i] in ws
    ensures forall i :: 0 <= i < |ws| && |ws[i]| > n ==> ws[i] in r
  {
    if ws == [] then []
    else if |ws[0]| > n then [ws[0]] + LongerThan(ws[1..], n)
    else LongerThan(ws[1..], n)
  }

  /** `s.split('\n')`: always at least one piece. */
  function Lines(s: string): (ls: seq<string>)
    ensures |ls| >= 1
    decreases |s|
  {
    match IndexOf(s, "\n", 0)
    case None => [s]
    case Some(i) => [s[..i]] + Lines(s[i + 1..])
  }

  function DigitChar(d: nat): char
    requires d < 10
  {
    ('0' as int + d) as char
  }

  /** `str(n)` for a natural number. */
  function NatToString(n: nat): string
    decreases n
  {
    if n < 10 then [DigitChar(n)] else NatToString(n / 10) + [DigitChar(n % 10)]
  }

  /** `str(i)` for an integer. */
  function IntToString(i: int): string {
    if i < 0 then "-" + NatToString(-i) else NatToString(i)
  }
}
