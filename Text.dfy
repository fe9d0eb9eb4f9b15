/**
 * The handful of Python `str` operations the orchestrator relies on:
 * `startswith`/`endswith`, `strip`/`lstrip`/`rstrip`, `replace` of one
 * character, `lower` (ASCII), `find`/`rfind`, `split`/`join` on one separator
 * and `str()` of an integer.
 */
module Text {
  import opened Wrappers

  predicate StartsWith(s: string, p: string) {
    |p| <= |s| && s[..|p|] == p
  }

  predicate EndsWith(s: string, p: string) {
    |p| <= |s| && s[|s| - |p|..] == p
  }

  /** Python truthiness of an optional string: present and non-empty. */
  predicate Truthy(o: Option<string>) {
    o.Some? && o.value != ""
  }

  /** `s.rstrip(c)`: the longest prefix of `s` that does not end with `c`. */
  function RStrip(s: string, c: char): (r: string)
    ensures |r| <= |s| && r == s[..|r|]
    ensures r == [] || r[|r| - 1] != c
    ensures forall i :: |r| <= i < |s| ==> s[i] == c
    decreases |s|
  {
    if s != [] && s[|s| - 1] == c then RStrip(s[..|s| - 1], c) else s
  }

  /** `s.lstrip(c)`: the longest suffix of `s` that does not start with `c`. */
  function LStrip(s: string, c: char): (r: string)
    ensures |r| <= |s| && r == s[|s| - |r|..]
    ensures r == [] || r[0] != c
    ensures forall i :: 0 <= i < |s| - |r| ==> s[i] == c
    decreases |s|
  {
    if s != [] && s[0] == c then LStrip(s[1..], c) else s
  }

  /** The characters for which Python's `str.isspace` holds: ASCII blanks and Unicode's whitespace. */
  predicate IsSpace(ch: char) {
    || ch == ' ' || '\t' <= ch <= '\r' || '\U{1C}' <= ch <= '\U{1F}'
    || ch == '\U{85}' || ch == '\U{A0}' || ch == '\U{1680}' || '\U{2000}' <= ch <= '\U{200A}'
    || ch == '\U{2028}' || ch == '\U{2029}' || ch == '\U{202F}' || ch == '\U{205F}' || ch == '\U{3000}'
  }

  function RStripSpace(s: string): (r: string)
    ensures |r| <= |s| && r == s[..|r|]
    ensures r == [] || !IsSpace(r[|r| - 1])
    ensures forall i :: |r| <= i < |s| ==> IsSpace(s[i])
    decreases |s|
  {
    if s != [] && IsSpace(s[|s| - 1]) then RStripSpace(s[..|s| - 1]) else s
  }

  function LStripSpace(s: string): (r: string)
    ensures |r| <= |s| && r == s[|s| - |r|..]
    ensures r == [] || !IsSpace(r[0])
    ensures forall i :: 0 <= i < |s| - |r| ==> IsSpace(s[i])
    decreases |s|
  {
    if s != [] && IsSpace(s[0]) then LStripSpace(s[1..]) else s
  }

  /** `s.strip()`: `s` without leading and trailing whitespace. */
  function Strip(s: string): (r: string)
    ensures |r| <= |s|
    ensures r == [] || (!IsSpace(r[0]) && !IsSpace(r[|r| - 1]))
    ensures r == [] <==> forall i :: 0 <= i < |s| ==> IsSpace(s[i])
  {
    var t := RStripSpace(s);
    var r := LStripSpace(t);
    assert r != [] ==> r[|r| - 1] == t[|t| - 1];
    r
  }

  /** Stripping adds no characters. */
  lemma StripKeepsOut(s: string, ch: char)
    requires ch !in s
    ensures ch !in Strip(s)
  {
    var t := RStripSpace(s);
    var r := LStripSpace(t);
    forall i | 0 <= i < |r| ensures r[i] != ch {
      assert r[i] == t[|t| - |r| + i] == s[|t| - |r| + i];
    }
  }

  /** Stripping twice is stripping once. */
  lemma StripIdempotent(s: string)
    ensures Strip(Strip(s)) == Strip(s)
  {
    var r := Strip(s);
    assert RStripSpace(r) == r;
    assert LStripSpace(r) == r;
  }

  /** `s.replace(a, b)` for single characters `a` and `b`. */
  function Replace(s: string, a: char, b: char): (r: string)
    ensures |r| == |s|
    ensures forall i :: 0 <= i < |s| ==> r[i] == if s[i] == a then b else s[i]
  {
    if s == [] then [] else [if s[0] == a then b else s[0]] + Replace(s[1..], a, b)
  }

  function LowerChar(ch: char): char {
    if 'A' <= ch <= 'Z' then (ch as int + 32) as char else ch
  }

  /** `s.lower()` restricted to ASCII letters. */
  function Lower(s: string): (r: string)
    ensures |r| == |s|
    ensures forall i :: 0 <= i < |s| ==> r[i] == LowerChar(s[i])
  {
    if s == [] then [] else [LowerChar(s[0])] + Lower(s[1..])
  }

  /** Index of the first character of `s` in `cs`, or `|s|` when there is none. */
  function IndexWhere(s: string, cs: set<char>): (r: nat)
    ensures r <= |s|
    ensures forall j :: 0 <= j < r ==> s[j] !in cs
    ensures r < |s| ==> s[r] in cs
  {
    if s == [] || s[0] in cs then 0 else 1 + IndexWhere(s[1..], cs)
  }

  lemma {:induction false} IndexWhereAppend(a: string, b: string, cs: set<char>)
    requires forall j :: 0 <= j < |a| ==> a[j] !in cs
    ensures IndexWhere(a + b, cs) == |a| + IndexWhere(b, cs)
  {
    if a == [] {
      assert a + b == b;
    } else {
      assert (a + b)[0] == a[0];
      assert (a + b)[1..] == a[1..] + b;
      IndexWhereAppend(a[1..], b, cs);
    }
  }

  predicate OccursAt(s: string, pat: string, j: int) {
    0 <= j && j + |pat| <= |s| && s[j..j + |pat|] == pat
  }

  function RFindUpTo(s: string, pat: string, k: int): (r: Option<nat>)
    ensures r.Some? ==> r.value <= k && OccursAt(s, pat, r.value)
    ensures r.Some? ==> forall j :: r.value < j <= k ==> !OccursAt(s, pat, j)
    ensures r.None? ==> forall j :: j <= k ==> !OccursAt(s, pat, j)
    decreases k + 1
  {
    if k < 0 then None
    else if OccursAt(s, pat, k) then Some(k)
    else RFindUpTo(s, pat, k - 1)
  }

  /** `s.rfind(pat)`: the start of the last occurrence of `pat` in `s`. */
  function RFind(s: string, pat: string): (r: Option<nat>)
    ensures r.Some? ==> OccursAt(s, pat, r.value)
    ensures r.Some? ==> forall j :: r.value < j ==> !OccursAt(s, pat, j)
    ensures r.None? ==> forall j :: !OccursAt(s, pat, j)
  {
    RFindUpTo(s, pat, |s| - |pat|)
  }

  /** `s.rsplit(pat, 1)[0]`: the text before the last `pat`, or all of `s`. */
  function BeforeLast(s: string, pat: string): (r: string)
    ensures StartsWith(s, r)
  {
    match RFind(s, pat)
    case Some(i) => s[..i]
    case None => s
  }

  /** A text that ends in `pat` has what precedes that ending as the text before its last `pat`. */
  lemma BeforeLastAtEnd(a: string, pat: string)
    ensures BeforeLast(a + pat, pat) == a
  {
    var s := a + pat;
    assert s[|a|..|a| + |pat|] == pat;
    assert OccursAt(s, pat, |a|);
    assert RFind(s, pat) == Some(|a|);
    assert s[..|a|] == a;
  }

  /** `sep.join(parts)`. */
  function Join(parts: seq<string>, sep: string): string {
    if |parts| == 0 then ""
    else if |parts| == 1 then parts[0]
    else parts[0] + sep + Join(parts[1..], sep)
  }

  /** `s.split(sep)` for a one-character separator; joining the pieces gives `s` back. */
  function Split(s: string, sep: char): (r: seq<string>)
    ensures |r| >= 1
    ensures forall i :: 0 <= i < |r| ==> sep !in r[i]
    ensures Join(r, [sep]) == s
    decreases |s|
  {
    var i := IndexWhere(s, {sep});
    if i == |s| then
      assert forall j :: 0 <= j < |s| ==> s[j] != sep;
      [s]
    else
      var rest := Split(s[i + 1..], sep);
      var r := [s[..i]] + rest;
      assert r[1..] == rest;
      assert s == s[..i] + [sep] + s[i + 1..];
      r
  }

  /** A separator-free first piece followed by the separator splits off as one piece. */
  lemma SplitCons(p: string, rest: string, sep: char)
    requires sep !in p
    ensures Split(p + [sep] + rest, sep) == [p] + Split(rest, sep)
  {
    var s := p + [sep] + rest;
    assert s == p + ([sep] + rest);
    assert ([sep] + rest)[0] == sep;
    IndexWhereAppend(p, [sep] + rest, {sep});
    assert s[..|p|] == p;
    assert s[|p| + 1..] == rest;
  }

  /** Splitting a joined list of separator-free pieces gives the pieces back. */
  lemma {:induction false} SplitJoin(parts: seq<string>, sep: char)
    requires |parts| >= 1
    requires forall i :: 0 <= i < |parts| ==> sep !in parts[i]
    ensures Split(Join(parts, [sep]), sep) == parts
  {
    if |parts| == 1 {
      assert Join(parts, [sep]) == parts[0];
      IndexWhereAppend(parts[0], [], {sep});
      assert parts[0] + [] == parts[0];
    } else {
      var rest := Join(parts[1..], [sep]);
      assert Join(parts, [sep]) == parts[0] + [sep] + rest;
      SplitCons(parts[0], rest, sep);
      SplitJoin(parts[1..], sep);
      assert parts == [parts[0]] + parts[1..];
    }
  }

  function DigitChar(d: nat): char
    requires d < 10
  {
    "0123456789"[d]
  }

  function NatToString(n: nat): (r: string)
    ensures r != []
    ensures forall i :: 0 <= i < |r| ==> '0' <= r[i] <= '9'
  {
    if n < 10 then [DigitChar(n)] else NatToString(n / 10) + [DigitChar(n % 10)]
  }

  /** `str(n)` for an integer: its decimal digits, after a '-' when negative. */
  function IntToString(n: int): (r: string)
    ensures r != []
    ensures forall i :: 0 <= i < |r| ==> r[i] == '-' || '0' <= r[i] <= '9'
    ensures forall i :: 1 <= i < |r| ==> '0' <= r[i] <= '9'
    ensures n >= 0 <==> '0' <= r[0] <= '9'
  {
    if n < 0 then "-" + NatToString(-n) else NatToString(n)
  }
}
