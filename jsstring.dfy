/**
 * The handful of JavaScript string operations the core relies on, on `seq<char>`:
 * `trim`, `split` on one character, `join`, `startsWith`, `replace(/c/g, d)`,
 * `toUpperCase` (ASCII letters only), the regular-expression class `\s`, and the
 * `split(' ').filter(Boolean).map(p => p[0]).join('').slice(0, 2).toUpperCase() || 'U'`
 * chain that both the dashboard and the profile editor use for initials.
 */
module JsString {

  /** `\s` and the characters `String.prototype.trim` removes: WhiteSpace and LineTerminator. */
  predicate IsWhitespace(c: char) {
    || c == ' ' || c == '\t' || c == '\n' || c == '\r' || c == '\U{B}' || c == '\U{C}'
    || c == '\U{A0}' || c == '\U{1680}' || ('\U{2000}' <= c <= '\U{200A}')
    || c == '\U{2028}' || c == '\U{2029}' || c == '\U{202F}' || c == '\U{205F}'
    || c == '\U{3000}' || c == '\U{FEFF}'
  }

  /** The characters the regular-expression `.` does not match. */
  predicate IsLineTerminator(c: char) {
    c == '\n' || c == '\r' || c == '\U{2028}' || c == '\U{2029}'
  }

  predicate IsAsciiLower(c: char) { 'a' <= c <= 'z' }
  predicate IsAsciiUpper(c: char) { 'A' <= c <= 'Z' }
  predicate IsAsciiDigit(c: char) { '0' <= c <= '9' }

  function TrimStart(s: string): (r: string)
    ensures |r| <= |s| && r == s[|s| - |r|..]
    ensures forall i :: 0 <= i < |s| - |r| ==> IsWhitespace(s[i])
    ensures r == [] || !IsWhitespace(r[0])
    decreases |s|
  {
    if s != [] && IsWhitespace(s[0]) then TrimStart(s[1..]) else s
  }

  function TrimEnd(s: string): (r: string)
    ensures |r| <= |s| && r == s[..|r|]
    ensures forall i :: |r| <= i < |s| ==> IsWhitespace(s[i])
    ensures r == [] || !IsWhitespace(r[|r| - 1])
    decreases |s|
  {
    if s != [] && IsWhitespace(s[|s| - 1]) then TrimEnd(s[..|s| - 1]) else s
  }

  /** `s.trim()`: `s` without its leading and trailing whitespace. */
  function Trim(s: string): (r: string)
    ensures r == [] || (!IsWhitespace(r[0]) && !IsWhitespace(r[|r| - 1]))
  {
    TrimEnd(TrimStart(s))
  }

  /** `Trim` keeps the rest of the string in place: `Trim(s)` is the infix of `s` that
      starts at offset `Lead(s)`. */
  lemma {:induction false} TrimIsInfix(s: string)
    ensures Lead(s) + |Trim(s)| <= |s| && Trim(s) == s[Lead(s)..Lead(s) + |Trim(s)|]
  {
    var t := TrimStart(s);
    var k := Lead(s);
    var r := TrimEnd(t);
    assert Trim(s) == r;
    SliceOfSuffix(s, k, |r|);
  }

  /** The characters after that infix are whitespace (those before it are, by `Lead`). */
  lemma {:induction false} TrimDropsWhitespace(s: string)
    ensures forall i :: Lead(s) + |Trim(s)| <= i < |s| ==> IsWhitespace(s[i])
  {
    var t := TrimStart(s);
    var r := TrimEnd(t);
    assert Trim(s) == r;
    WhitespaceTail(s, Lead(s), t, |r|);
  }

  /** Whitespace at the end of a suffix `t` of `s` is whitespace at the end of `s`. */
  lemma WhitespaceTail(s: string, k: nat, t: string, n: nat)
    requires k <= |s| && t == s[k..] && n <= |t|
    requires forall i :: n <= i < |t| ==> IsWhitespace(t[i])
    ensures forall i :: k + n <= i < |s| ==> IsWhitespace(s[i])
  {
    forall i | k + n <= i < |s|
      ensures IsWhitespace(s[i])
    {
      assert s[i] == t[i - k];
    }
  }

  lemma SliceOfSuffix<T>(s: seq<T>, k: nat, n: nat)
    requires k + n <= |s|
    ensures s[k..][..n] == s[k..k + n]
  {
  }

  /** The number of leading whitespace characters `trim` drops. */
  function Lead(s: string): (k: nat)
    ensures k <= |s| && TrimStart(s) == s[k..]
    ensures forall i :: 0 <= i < k ==> IsWhitespace(s[i])
  {
    |s| - |TrimStart(s)|
  }

  /** `r` is `s` with its `Lead(s)` leading characters and some trailing characters cut
      off, all of them whitespace. */
  predicate TrimmedFrom(s: string, r: string) {
    && Lead(s) + |r| <= |s| && r == s[Lead(s)..Lead(s) + |r|]
    && (forall i :: 0 <= i < Lead(s) ==> IsWhitespace(s[i]))
    && (forall i :: Lead(s) + |r| <= i < |s| ==> IsWhitespace(s[i]))
  }

  /** `trim` cuts off whitespace only, on both sides. */
  lemma TrimTrims(s: string)
    ensures TrimmedFrom(s, Trim(s))
  {
    TrimIsInfix(s);
    TrimDropsWhitespace(s);
  }

  /** Nothing but whitespace: what `!s.trim()` tests. */
  predicate IsBlank(s: string) {
    forall i :: 0 <= i < |s| ==> IsWhitespace(s[i])
  }

  /** `s.trim()` is empty exactly when `s` is blank. */
  lemma TrimEmpty(s: string)
    ensures Trim(s) == [] <==> IsBlank(s)
  {
    if IsBlank(s) {
      var t := TrimStart(s);
      assert t == [];
    }
    if Trim(s) == [] {
      TrimDropsWhitespace(s);
    }
  }

  /** `s.split(sep)` for a one-character separator: the pieces between separators,
      one more piece than there are separators (so `"".split(sep)` is `[""]`). */
  function Split(s: string, sep: char): (parts: seq<string>)
    ensures |parts| >= 1
    ensures forall i :: 0 <= i < |parts| ==> sep !in parts[i]
    decreases |s|
  {
    if s == [] then [[]]
    else if s[0] == sep then [[]] + Split(s[1..], sep)
    else
      var rest := Split(s[1..], sep);
      [[s[0]] + rest[0]] + rest[1..]
  }

  /** `parts.join(sep)`. */
  function Join(parts: seq<string>, sep: string): string
    decreases |parts|
  {
    if |parts| == 0 then ""
    else if |parts| == 1 then parts[0]
    else parts[0] + sep + Join(parts[1..], sep)
  }

  /** Splitting and re-joining with the same separator gives back the string. */
  lemma {:induction false} JoinSplit(s: string, sep: char)
    ensures Join(Split(s, sep), [sep]) == s
    decreases |s|
  {
    if s == [] {
    } else if s[0] == sep {
      JoinSplit(s[1..], sep);
      var rest := Split(s[1..], sep);
      assert Split(s, sep) == [[]] + rest;
      assert ([[]] + rest)[1..] == rest;
      assert s == [sep] + s[1..];
    } else {
      JoinSplit(s[1..], sep);
      var rest := Split(s[1..], sep);
      var parts := [[s[0]] + rest[0]] + rest[1..];
      assert parts[1..] == rest[1..];
      if |rest| == 1 {
        assert s == [s[0]] + rest[0];
      } else {
        assert Join(rest, [sep]) == rest[0] + [sep] + Join(rest[1..], [sep]);
        assert s == [s[0]] + s[1..];
      }
    }
  }

  /** A string without the separator is one piece. */
  lemma {:induction false} SplitNoSeparator(s: string, sep: char)
    requires sep !in s
    ensures Split(s, sep) == [s]
    decreases |s|
  {
    if s != [] {
      assert sep !in s[1..];
      SplitNoSeparator(s[1..], sep);
      assert s == [s[0]] + s[1..];
    }
  }

  /** Splitting `a + [sep] + b` splits `a` and `b` separately. */
  lemma {:induction false} SplitAtSeparator(a: string, sep: char, b: string)
    ensures Split(a + [sep] + b, sep) == Split(a, sep) + Split(b, sep)
    decreases |a|
  {
    var s := a + [sep] + b;
    if a == [] {
      assert s[1..] == b;
    } else {
      assert s[1..] == a[1..] + [sep] + b;
      SplitAtSeparator(a[1..], sep, b);
    }
  }

  /** The first piece of a split is the text before the first separator. */
  lemma {:induction false} SplitHead(s: string, sep: char)
    ensures sep !in Split(s, sep)[0]
    ensures |Split(s, sep)[0]| <= |s| && Split(s, sep)[0] == s[..|Split(s, sep)[0]|]
    ensures |Split(s, sep)[0]| < |s| ==> s[|Split(s, sep)[0]|] == sep
    decreases |s|
  {
    if s != [] && s[0] != sep {
      SplitHead(s[1..], sep);
    }
  }

  /** `s.startsWith(prefix)`. */
  predicate StartsWith(s: string, prefix: string) {
    |prefix| <= |s| && s[..|prefix|] == prefix
  }

  /** `s.replace(/from/g, to)` for single characters. */
  function ReplaceAll(s: string, from: char, to: char): (r: string)
    ensures |r| == |s|
    ensures forall i :: 0 <= i < |s| ==> r[i] == (if s[i] == from then to else s[i])
    decreases |s|
  {
    if s == [] then []
    else [if s[0] == from then to else s[0]] + ReplaceAll(s[1..], from, to)
  }

  function UpperChar(c: char): char {
    if IsAsciiLower(c) then (c as int - 32) as char else c
  }

  /** `s.toUpperCase()` on ASCII letters. */
  function ToUpper(s: string): (r: string)
    ensures |r| == |s| && forall i :: 0 <= i < |s| ==> r[i] == UpperChar(s[i])
  {
    seq(|s|, i requires 0 <= i < |s| => UpperChar(s[i]))
  }

  /** `parts.filter(Boolean)`: the non-empty strings, in order. */
  function NonEmpty(parts: seq<string>): (r: seq<string>)
    ensures forall i :: 0 <= i < |r| ==> r[i] != [] && r[i] in parts
    ensures forall i :: 0 <= i < |parts| && parts[i] != [] ==> parts[i] in r
    decreases |parts|
  {
    if parts == [] then []
    else if parts[0] == [] then NonEmpty(parts[1..])
    else [parts[0]] + NonEmpty(parts[1..])
  }

  /** `s.split(' ').filter(Boolean)`: the space-separated words of `s`. */
  function Words(s: string): (w: seq<string>)
    ensures forall i :: 0 <= i < |w| ==> w[i] != [] && ' ' !in w[i]
  {
    var parts := Split(s, ' ');
    var w := NonEmpty(parts);
    assert forall i :: 0 <= i < |w| ==> ' ' !in w[i] by {
      forall i | 0 <= i < |w| ensures ' ' !in w[i] {
        var j :| 0 <= j < |parts| && parts[j] == w[i];
      }
    }
    w
  }

  /** `words.map(p => p[0]).join('')`. */
  function FirstLetters(words: seq<string>): (r: string)
    requires forall i :: 0 <= i < |words| ==> words[i] != []
    ensures |r| == |words| && forall i :: 0 <= i < |words| ==> r[i] == words[i][0]
    decreases |words|
  {
    if words == [] then [] else [words[0][0]] + FirstLetters(words[1..])
  }

  /** The initials chain: the upper-cased first letters of the first two words of
      `text`, or `"U"` when `text` has no words. */
  function Initials(text: string): (r: string)
    ensures |r| == 1 || |r| == 2
    ensures Words(text) == [] ==> r == "U"
    ensures Words(text) != [] ==>
              |r| == (if |Words(text)| < 2 then |Words(text)| else 2)
              && forall i :: 0 <= i < |r| ==> r[i] == UpperChar(Words(text)[i][0])
  {
    var letters := FirstLetters(Words(text));
    var two := if |letters| <= 2 then letters else letters[..2];
    var up := ToUpper(two);
    if up == "" then "U" else up
  }

  /** A word: non-empty and free of whitespace. */
  predicate IsWord(w: string) {
    w != [] && forall i :: 0 <= i < |w| ==> !IsWhitespace(w[i])
  }

  /** Two words joined by a space split into exactly those two words. */
  lemma WordsOfTwo(first: string, last: string)
    requires IsWord(first) && IsWord(last)
    ensures Words(first + " " + last) == [first, last]
  {
    var s := first + " " + last;
    assert ' ' !in first by { assert forall i :: 0 <= i < |first| ==> first[i] != ' '; }
    assert ' ' !in last by { assert forall i :: 0 <= i < |last| ==> last[i] != ' '; }
    assert s == first + [' '] + last;
    SplitAtSeparator(first, ' ', last);
    SplitNoSeparator(first, ' ');
    SplitNoSeparator(last, ' ');
    assert Split(s, ' ') == [first, last];
    assert NonEmpty([first, last]) == [first, last] by {
      assert [first, last][1..] == [last];
      assert NonEmpty([last]) == [last] by { assert [last][1..] == []; }
    }
  }

  /** The initials of two words joined by a space, trimmed, are their upper-cased first letters. */
  lemma TwoWordInitials(first: string, last: string)
    requires IsWord(first) && IsWord(last)
    ensures Trim(first + " " + last) == first + " " + last
    ensures Initials(Trim(first + " " + last)) == [UpperChar(first[0]), UpperChar(last[0])]
  {
    var s := first + " " + last;
    assert s[0] == first[0] && s[|s| - 1] == last[|last| - 1];
    TrimUnchanged(s);
    WordsOfTwo(first, last);
  }

  /** A word followed by a space trims to the word. */
  lemma TrimTrailingSpace(w: string)
    requires IsWord(w)
    ensures Trim(w + " ") == w
  {
    var s := w + " ";
    assert TrimStart(s) == s;
    assert s[..|s| - 1] == w;
    assert TrimEnd(w) == w;
  }

  /** A string with no whitespace at either end is its own trim. */
  lemma TrimUnchanged(s: string)
    requires s != [] && !IsWhitespace(s[0]) && !IsWhitespace(s[|s| - 1])
    ensures Trim(s) == s
  {
    assert TrimStart(s) == s;
    assert TrimEnd(s) == s;
  }

  /** The first initial of a text that does not start with a space is its first letter, upper-cased. */
  lemma InitialsFirstLetter(s: string)
    requires s != [] && s[0] != ' '
    ensures Initials(s)[0] == UpperChar(s[0])
  {
    var parts := Split(s, ' ');
    SplitHead(s, ' ');
    assert parts[0] != [] && parts[0][0] == s[0];
    assert NonEmpty(parts) == [parts[0]] + NonEmpty(parts[1..]);
  }
}
