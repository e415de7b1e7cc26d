/** The JavaScript string operations the core uses (`toLowerCase`,
    `toUpperCase`, `includes`, `split`, `join`, and the decimal rendering of
    a number inside a template literal). Case mapping is the ASCII part of
    the Unicode mapping only. */
module JsString {
  import opened Wrappers

  function LowerChar(c: char): char {
    if 'A' <= c <= 'Z' then (c as int + 32) as char else c
  }

  function UpperChar(c: char): char {
    if 'a' <= c <= 'z' then (c as int - 32) as char else c
  }

  /** `s.toLowerCase()`, restricted to ASCII letters. */
  function ToLowerCase(s: string): string {
    seq(|s|, i requires 0 <= i < |s| => LowerChar(s[i]))
  }

  /** `s.toUpperCase()`, restricted to ASCII letters. */
  function ToUpperCase(s: string): string {
    seq(|s|, i requires 0 <= i < |s| => UpperChar(s[i]))
  }

  /** `n` occurs in `h` as a contiguous block. */
  ghost predicate IsSubstring(n: string, h: string) {
    exists i, j :: 0 <= i <= j <= |h| && h[i..j] == n
  }

  /** `h.includes(n)`: tries every starting position of `h` in turn. */
  function Includes(h: string, n: string): bool
    decreases |h|
  {
    if |n| > |h| then false
    else if h[..|n|] == n then true
    else Includes(h[1..], n)
  }

  /** `includes` decides exactly the substring relation. */
  lemma {:induction false} IncludesIsSubstring(h: string, n: string)
    ensures Includes(h, n) <==> IsSubstring(n, h)
    decreases |h|
  {
    if |n| > |h| {
    } else if h[..|n|] == n {
      assert h[0..|n|] == n;
    } else {
      IncludesIsSubstring(h[1..], n);
      if IsSubstring(n, h[1..]) {
        SubstringOfTail(h, n);
      }
      if IsSubstring(n, h) {
        SubstringAfterStart(h, n);
      }
    }
  }

  /** A substring of `h[1..]` is a substring of `h`. */
  lemma SubstringOfTail(h: string, n: string)
    requires |h| > 0 && IsSubstring(n, h[1..])
    ensures IsSubstring(n, h)
  {
    var i, j :| 0 <= i <= j <= |h[1..]| && h[1..][i..j] == n;
    assert h[i + 1..j + 1] == h[1..][i..j];
  }

  /** A substring of `h` that is not at its start is a substring of `h[1..]`. */
  lemma SubstringAfterStart(h: string, n: string)
    requires |n| <= |h| && h[..|n|] != n && IsSubstring(n, h)
    ensures IsSubstring(n, h[1..])
  {
    var i, j :| 0 <= i <= j <= |h| && h[i..j] == n;
    assert j - i == |n|;
    assert i != 0;
    assert h[1..][i - 1..j - 1] == h[i..j];
  }

  /** `s.split(sep)` for a one-character separator: the maximal runs
      between separators, including empty ones, so there is always one
      part more than there are separators. */
  function Split(s: string, sep: char): (parts: seq<string>)
    ensures |parts| == Occurrences(s, sep) + 1
    ensures forall k :: 0 <= k < |parts| ==> sep !in parts[k]
  {
    if s == [] then [""]
    else
      var rest := Split(s[1..], sep);
      if s[0] == sep then [""] + rest
      else [[s[0]] + rest[0]] + rest[1..]
  }

  /** The number of times `c` occurs in `s`. */
  function Occurrences(s: string, c: char): nat {
    if s == [] then 0 else (if s[0] == c then 1 else 0) + Occurrences(s[1..], c)
  }

  /** `parts.join(sep)` for a one-character separator. */
  function Join(parts: seq<string>, sep: char): string {
    if |parts| == 0 then ""
    else if |parts| == 1 then parts[0]
    else parts[0] + [sep] + Join(parts[1..], sep)
  }

  /** Joining the parts of a split restores the string. */
  lemma {:induction false} JoinSplit(s: string, sep: char)
    ensures Join(Split(s, sep), sep) == s
  {
    if s != [] {
      var rest := Split(s[1..], sep);
      JoinSplit(s[1..], sep);
      if s[0] == sep {
        assert ([""] + rest)[1..] == rest;
        assert s == [sep] + s[1..];
      } else {
        var parts := [[s[0]] + rest[0]] + rest[1..];
        assert parts[1..] == rest[1..];
        if |rest| == 1 {
          assert s == [s[0]] + rest[0];
        } else {
          assert Join(rest, sep) == rest[0] + [sep] + Join(rest[1..], sep);
          assert s == [s[0]] + s[1..];
        }
      }
    }
  }

  /** Splitting a word with no separator, followed by `t`, extends the
      first part of `t`'s split by that word. */
  lemma {:induction false} SplitWordPrefix(w: string, t: string, sep: char)
    requires sep !in w
    ensures Split(w + t, sep) == [w + Split(t, sep)[0]] + Split(t, sep)[1..]
  {
    if w != [] {
      SplitWordPrefix(w[1..], t, sep);
      assert (w + t)[1..] == w[1..] + t;
      assert [w[0]] + (w[1..] + Split(t, sep)[0]) == w + Split(t, sep)[0];
    } else {
      var parts := Split(t, sep);
      assert w + t == t && w + parts[0] == parts[0];
      assert parts == [parts[0]] + parts[1..];
    }
  }

  /** Splitting a join of separator-free parts gives the parts back. */
  lemma {:induction false} SplitJoin(parts: seq<string>, sep: char)
    requires |parts| >= 1
    requires forall k :: 0 <= k < |parts| ==> sep !in parts[k]
    ensures Split(Join(parts, sep), sep) == parts
  {
    if |parts| == 1 {
      SplitWordPrefix(parts[0], "", sep);
      assert parts[0] + "" == parts[0];
    } else {
      var tail := Join(parts[1..], sep);
      SplitJoin(parts[1..], sep);
      assert Join(parts, sep) == parts[0] + ([sep] + tail);
      SplitWordPrefix(parts[0], [sep] + tail, sep);
      assert ([sep] + tail)[1..] == tail;
      assert parts[0] + "" == parts[0];
      assert parts == [parts[0]] + parts[1..];
    }
  }

  /** `parts.join('')` over one-character strings and `undefined`s; `join`
      renders `undefined` as the empty string. */
  function JoinChars(cs: seq<Option<char>>): string {
    if cs == [] then ""
    else (match cs[0] case None => "" case Some(c) => [c]) + JoinChars(cs[1..])
  }

  function DigitChar(d: nat): char
    requires d < 10
  {
    (48 + d) as char
  }

  /** The decimal digits of `n`, as a template literal renders an integral
      number, with no leading zeros. */
  function NumberToString(n: nat): (r: string)
    ensures |r| >= 1
    ensures n >= 10 <==> |r| >= 2
    ensures forall i :: 0 <= i < |r| ==> '0' <= r[i] <= '9'
  {
    if n < 10 then [DigitChar(n)] else NumberToString(n / 10) + [DigitChar(n % 10)]
  }

  /** Different numbers render as different strings. */
  lemma {:induction false} NumberToStringInjective(a: nat, b: nat)
    ensures NumberToString(a) == NumberToString(b) <==> a == b
  {
    if NumberToString(a) == NumberToString(b) && a >= 10 && b >= 10 {
      var ra, rb := NumberToString(a), NumberToString(b);
      assert ra[..|ra| - 1] == NumberToString(a / 10);
      assert rb[..|rb| - 1] == NumberToString(b / 10);
      NumberToStringInjective(a / 10, b / 10);
      assert ra[|ra| - 1] == DigitChar(a % 10);
    }
  }
}
