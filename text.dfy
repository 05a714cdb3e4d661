/** The JavaScript string operations the core uses: `toLowerCase`, `includes`,
    `startsWith`, `endsWith`, `trim`, `split` on one character and on `/\s+/`. */
module Text {

  /** ECMAScript WhiteSpace and LineTerminator code points: what `trim()` strips and `\s` matches. */
  predicate IsSpace(c: char) {
    || c == '\t' || c == '\n' || c == '\U{000B}' || c == '\U{000C}' || c == '\r' || c == ' '
    || c == '\U{00A0}' || c == '\U{1680}' || ('\U{2000}' <= c <= '\U{200A}')
    || c == '\U{2028}' || c == '\U{2029}' || c == '\U{202F}' || c == '\U{205F}'
    || c == '\U{3000}' || c == '\U{FEFF}'
  }

  /** `toLowerCase` on one character (ASCII letters only). */
  function LowerChar(c: char): (r: char)
    ensures 'A' <= c <= 'Z' ==> 'a' <= r <= 'z' && r as int - c as int == 32
    ensures !('A' <= c <= 'Z') ==> r == c
  {
    if 'A' <= c <= 'Z' then (c as int + 32) as char else c
  }

  /** `s.toLowerCase()`: same length, every character lowered. */
  function Lower(s: string): (r: string)
    ensures |r| == |s|
    ensures forall i :: 0 <= i < |s| ==> r[i] == LowerChar(s[i])
  {
    seq(|s|, i requires 0 <= i < |s| => LowerChar(s[i]))
  }

  /** `s.includes(t)`: `t` occurs in `s` at some offset. */
  predicate Contains(s: string, t: string) {
    exists i :: 0 <= i <= |s| - |t| && OccursAt(s, t, i)
  }

  /** `t` occurs in `s` starting at offset `i`. */
  predicate OccursAt(s: string, t: string, i: int)
    requires 0 <= i <= |s| - |t|
  {
    s[i..i + |t|] == t
  }

  /** The empty string occurs in every string, so an empty query matches everything. */
  lemma ContainsEmpty(s: string)
    ensures Contains(s, "")
  {
    assert OccursAt(s, "", 0);
  }

  /** A case-insensitive match as the source writes it: `a.toLowerCase().includes(q.toLowerCase())`. */
  predicate Matches(a: string, query: string) {
    Contains(Lower(a), Lower(query))
  }

  /** `s.startsWith(p)`. */
  predicate StartsWith(s: string, p: string) {
    |p| <= |s| && s[..|p|] == p
  }

  /** `s.endsWith(q)`. */
  predicate EndsWith(s: string, q: string) {
    |q| <= |s| && s[|s| - |q|..] == q
  }

  /** `s.trimStart()`: the suffix left after dropping the leading white space. */
  function TrimStart(s: string): (r: string)
    ensures |r| <= |s| && r == s[|s| - |r|..]
    ensures r != [] ==> !IsSpace(r[0])
  {
    if s != [] && IsSpace(s[0]) then TrimStart(s[1..]) else s
  }

  /** `s.trimEnd()`: the prefix left after dropping the trailing white space. */
  function TrimEnd(s: string): (r: string)
    ensures |r| <= |s| && r == s[..|r|]
    ensures r != [] ==> !IsSpace(r[|r| - 1])
  {
    if s != [] && IsSpace(s[|s| - 1]) then TrimEnd(s[..|s| - 1]) else s
  }

  /** Every character of `s` from `lo` up to `hi` is white space. */
  predicate BlankBetween(s: string, lo: int, hi: int)
    requires 0 <= lo <= hi <= |s|
  {
    forall k :: lo <= k < hi ==> IsSpace(s[k])
  }

  /** `trimStart` cuts away only white space. */
  lemma {:induction false} TrimStartCutsBlank(s: string)
    ensures BlankBetween(s, 0, |s| - |TrimStart(s)|)
  {
    if s != [] && IsSpace(s[0]) {
      TrimStartCutsBlank(s[1..]);
      forall k | 1 <= k < |s| - |TrimStart(s)| ensures IsSpace(s[k]) {
        assert s[k] == s[1..][k - 1];
      }
    }
  }

  /** `trimEnd` cuts away only white space. */
  lemma {:induction false} TrimEndCutsBlank(s: string)
    ensures BlankBetween(s, |TrimEnd(s)|, |s|)
  {
    if s != [] && IsSpace(s[|s| - 1]) {
      TrimEndCutsBlank(s[..|s| - 1]);
      forall k | |TrimEnd(s)| <= k < |s| - 1 ensures IsSpace(s[k]) {
        assert s[k] == s[..|s| - 1][k];
      }
    }
  }

  /** `s.trim()`: no white space at either end, and empty exactly when `s` is all white space. */
  function Trim(s: string): (r: string)
    ensures |r| <= |s|
    ensures r != [] ==> !IsSpace(r[0]) && !IsSpace(r[|r| - 1])
    ensures r == [] <==> BlankBetween(s, 0, |s|)
  {
    TrimBlank(s);
    TrimEnd(TrimStart(s))
  }

  /** A string without white space at its ends is its own trim. */
  lemma TrimUnpadded(s: string)
    requires s == [] || (!IsSpace(s[0]) && !IsSpace(s[|s| - 1]))
    ensures Trim(s) == s
  {
  }

  /** The trimmed string is empty exactly when every character is white space. */
  lemma TrimBlank(s: string)
    ensures TrimEnd(TrimStart(s)) == [] <==> BlankBetween(s, 0, |s|)
  {
    var t := TrimStart(s);
    var i := |s| - |t|;
    TrimStartCutsBlank(s);
    TrimEndCutsBlank(t);
    if TrimEnd(t) != [] {
      assert s[i] == t[0];
    }
  }

  /** Number of occurrences of `c` in `s`. */
  function Occurrences(s: string, c: char): nat {
    multiset(s)[c]
  }

  /** `s.split(sep)` for a one-character separator: the pieces between separators,
      including empty ones; never an empty list. */
  function Split(s: string, sep: char): (r: seq<string>)
    ensures |r| >= 1
    ensures forall p :: p in r ==> sep !in p
  {
    if s == [] then [[]]
    else
      var rest := Split(s[1..], sep);
      if s[0] == sep then [[]] + rest
      else [[s[0]] + rest[0]] + rest[1..]
  }

  /** `pieces.join(sep)`, the inverse of `Split`. */
  function Join(pieces: seq<string>, sep: char): string
    requires |pieces| >= 1
  {
    if |pieces| == 1 then pieces[0] else pieces[0] + [sep] + Join(pieces[1..], sep)
  }

  /** Joining the pieces of a split gives back the original string. */
  lemma {:induction false} JoinSplit(s: string, sep: char)
    ensures Join(Split(s, sep), sep) == s
  {
    if s != [] {
      var rest := Split(s[1..], sep);
      JoinSplit(s[1..], sep);
      assert s == [s[0]] + s[1..];
      if s[0] != sep && |rest| > 1 {
        assert Split(s, sep)[1..] == rest[1..];
      }
    }
  }

  /** A split yields one more piece than there are separators. */
  lemma {:induction false} SplitLength(s: string, sep: char)
    ensures |Split(s, sep)| == Occurrences(s, sep) + 1
  {
    if s != [] {
      SplitLength(s[1..], sep);
      assert s == [s[0]] + s[1..];
    }
  }

  /** A string without the separator is one piece. */
  lemma {:induction false} SplitWithoutSep(s: string, sep: char)
    requires sep !in s
    ensures Split(s, sep) == [s]
  {
    if s != [] {
      SplitWithoutSep(s[1..], sep);
      assert s == [s[0]] + s[1..];
    }
  }

  /** Splitting at a separator placed between two strings splits each of them. */
  lemma {:induction false} SplitConcat(a: string, b: string, sep: char)
    ensures Split(a + [sep] + b, sep) == Split(a, sep) + Split(b, sep)
  {
    if a == [] {
      assert a + [sep] + b == [sep] + b;
      assert ([sep] + b)[1..] == b;
    } else {
      assert (a + [sep] + b)[0] == a[0];
      assert (a + [sep] + b)[1..] == a[1..] + [sep] + b;
      SplitConcat(a[1..], b, sep);
    }
  }

  /** Trimming only removes characters. */
  lemma TrimWithin(s: string)
    ensures forall c :: c in Trim(s) ==> c in s
  {
    var t := TrimStart(s);
    assert forall c :: c in t ==> c in s;
    assert forall c :: c in TrimEnd(t) ==> c in t;
  }

  /** Splitting at every white-space character: the pieces between white space, with
      empty ones where white space repeats; `s.split(/\s+/)` yields the same non-empty pieces. */
  function SplitSpace(s: string): (r: seq<string>)
    ensures |r| >= 1
    ensures forall p, k :: p in r && 0 <= k < |p| ==> !IsSpace(p[k])
    ensures r[0] == [] <==> s == [] || IsSpace(s[0])
  {
    if s == [] then [[]]
    else
      var rest := SplitSpace(s[1..]);
      if IsSpace(s[0]) then [[]] + rest
      else
        var r := [[s[0]] + rest[0]] + rest[1..];
        assert forall p :: p in r ==> p == [s[0]] + rest[0] || p in rest;
        r
  }

  /** The non-empty pieces of a list, in order (`.filter(w => w.length > 0)`). */
  function NonEmpty(pieces: seq<string>): (r: seq<string>)
    ensures forall p :: p in r <==> p in pieces && p != []
  {
    if pieces == [] then []
    else if pieces[0] == [] then NonEmpty(pieces[1..])
    else [pieces[0]] + NonEmpty(pieces[1..])
  }

  /** Dropping empty pieces distributes over concatenation. */
  lemma {:induction false} NonEmptyConcat(a: seq<string>, b: seq<string>)
    ensures NonEmpty(a + b) == NonEmpty(a) + NonEmpty(b)
  {
    if a == [] {
      assert a + b == b;
    } else {
      assert (a + b)[1..] == a[1..] + b;
      NonEmptyConcat(a[1..], b);
    }
  }

  /** `s.split(/\s+/).filter(word => word.length > 0)`: the words of `s`. */
  function Words(s: string): seq<string> {
    NonEmpty(SplitSpace(s))
  }

  /** Number of positions of `s` where a word begins: a non-space character that is first
      or follows white space (`afterSpace` says whether the character before `s` was one). */
  function WordStarts(s: string, afterSpace: bool): nat {
    if s == [] then 0
    else (if afterSpace && !IsSpace(s[0]) then 1 else 0) + WordStarts(s[1..], IsSpace(s[0]))
  }

  lemma {:induction false} WordStartsAfterWord(s: string)
    ensures WordStarts(s, true) == WordStarts(s, false) + (if s != [] && !IsSpace(s[0]) then 1 else 0)
  {
  }

  /** The word count is the number of maximal runs of non-white-space characters. */
  lemma {:induction false} WordCountIsRuns(s: string)
    ensures |Words(s)| == WordStarts(s, true)
  {
    if s != [] {
      var rest := SplitSpace(s[1..]);
      WordCountIsRuns(s[1..]);
      if IsSpace(s[0]) {
        assert SplitSpace(s) == [[]] + rest;
        assert NonEmpty(SplitSpace(s)) == NonEmpty(rest);
      } else {
        assert SplitSpace(s) == [[s[0]] + rest[0]] + rest[1..];
        assert NonEmpty(SplitSpace(s)) == [[s[0]] + rest[0]] + NonEmpty(rest[1..]);
        assert rest == [rest[0]] + rest[1..];
        WordStartsAfterWord(s[1..]);
      }
    }
  }
}
