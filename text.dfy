/** Characters and strings as Python 3 sees them: white space (`str.isspace`, which is
    also what the `\s` class of a `str` regular expression and `str.strip()` use),
    ASCII digits and letters, case folding and substring search. */
module Text {

  /** `str.isspace()`: the characters `\s` matches and `strip()` removes. */
  predicate IsSpace(c: char) {
    || c == ' '
    || '\t' <= c <= '\r'
    || '\U{1c}' <= c <= '\U{1f}'
    || c == '\U{85}' || c == '\U{a0}' || c == '\U{1680}'
    || '\U{2000}' <= c <= '\U{200a}'
    || c == '\U{2028}' || c == '\U{2029}' || c == '\U{202f}' || c == '\U{205f}' || c == '\U{3000}'
  }

  predicate IsDigit(c: char) { '0' <= c <= '9' }

  predicate IsAsciiLetter(c: char) { 'a' <= c <= 'z' || 'A' <= c <= 'Z' }

  function Lower(c: char): char {
    if 'A' <= c <= 'Z' then (c as int + 32) as char else c
  }

  function Upper(c: char): char {
    if 'a' <= c <= 'z' then (c as int - 32) as char else c
  }

  function UpperCase(s: string): (r: string)
    ensures |r| == |s| && forall k :: 0 <= k < |s| ==> r[k] == Upper(s[k])
  {
    seq(|s|, k requires 0 <= k < |s| => Upper(s[k]))
  }

  /** Whether text character `c` matches pattern character `k`; with `ignoreCase`
      (the `re.IGNORECASE` flag) letters match regardless of case. */
  predicate CharMatch(c: char, k: char, ignoreCase: bool) {
    c == k || (ignoreCase && IsAsciiLetter(k) && Lower(c) == Lower(k))
  }

  /** A character matching an upper-case pattern letter, in either case, upper-cases to it. */
  lemma UpperMatched(c: char, k: char, ignoreCase: bool)
    requires 'A' <= k <= 'Z' && CharMatch(c, k, ignoreCase)
    ensures Upper(c) == k
  {
  }

  /** A word matching an upper-case literal, in any mix of cases, upper-cases to it. */
  lemma UpperWord(w: string, lit: string, ignoreCase: bool)
    requires |w| == |lit| && LitAt(w, 0, lit, ignoreCase)
    requires forall k :: 0 <= k < |lit| ==> 'A' <= lit[k] <= 'Z'
    ensures UpperCase(w) == lit
  {
    forall k | 0 <= k < |w| ensures UpperCase(w)[k] == lit[k] {
      assert CharMatch(w[0 + k], lit[k], ignoreCase);
      UpperMatched(w[k], lit[k], ignoreCase);
    }
  }

  /** The literal `lit` occurs in `s` at position `i`. */
  predicate LitAt(s: string, i: nat, lit: string, ignoreCase: bool) {
    i + |lit| <= |s| && forall k :: 0 <= k < |lit| ==> CharMatch(s[i + k], lit[k], ignoreCase)
  }

  /** `t` occurs in `s` at position `i`. */
  predicate OccursAt(s: string, i: nat, t: string) {
    i + |t| <= |s| && s[i..i + |t|] == t
  }

  /** Python's `t in s`, scanning from the left. */
  predicate Contains(s: string, t: string)
    decreases |s|
  {
    OccursAt(s, 0, t) || (s != [] && Contains(s[1..], t))
  }

  /** `t in s` holds exactly when `t` occurs at some position of `s`. */
  lemma {:induction false} ContainsMeans(s: string, t: string)
    ensures Contains(s, t) <==> exists i :: 0 <= i <= |s| && OccursAt(s, i, t)
    decreases |s|
  {
    if s != [] {
      ContainsMeans(s[1..], t);
      if Contains(s[1..], t) {
        var i :| 0 <= i <= |s[1..]| && OccursAt(s[1..], i, t);
        assert s[1..][i..i + |t|] == s[i + 1..i + 1 + |t|];
        assert OccursAt(s, i + 1, t);
      }
      if i :| 0 <= i <= |s| && OccursAt(s, i, t) {
        if i > 0 {
          assert s[1..][i - 1..i - 1 + |t|] == s[i..i + |t|];
          assert OccursAt(s[1..], i - 1, t);
        }
      }
    }
  }

  /** No white space at either end. */
  predicate Trimmed(s: string) {
    s == [] || (!IsSpace(s[0]) && !IsSpace(s[|s| - 1]))
  }

  function TrimLeft(s: string): (r: string)
    ensures |r| <= |s|
    ensures r == [] || !IsSpace(r[0])
    ensures forall k :: 0 <= k < |s| - |r| ==> IsSpace(s[k])
  {
    if |s| > 0 && IsSpace(s[0]) then TrimLeft(s[1..]) else s
  }

  /** What `TrimLeft` keeps is a suffix of its input. */
  lemma {:induction false} TrimLeftSuffix(s: string)
    ensures TrimLeft(s) == s[|s| - |TrimLeft(s)|..]
  {
    if |s| > 0 && IsSpace(s[0]) {
      TrimLeftSuffix(s[1..]);
    }
  }

  function TrimRight(s: string): (r: string)
    ensures |r| <= |s|
    ensures r == [] || !IsSpace(r[|r| - 1])
    ensures forall k :: |r| <= k < |s| ==> IsSpace(s[k])
  {
    if |s| > 0 && IsSpace(s[|s| - 1]) then TrimRight(s[..|s| - 1]) else s
  }

  /** What `TrimRight` keeps is a prefix of its input. */
  lemma {:induction false} TrimRightPrefix(s: string)
    ensures TrimRight(s) == s[..|TrimRight(s)|]
  {
    if |s| > 0 && IsSpace(s[|s| - 1]) {
      TrimRightPrefix(s[..|s| - 1]);
    }
  }

  /** Python's `str.strip()` with no argument: the longest middle part of `s` that
      neither starts nor ends with white space. */
  function Strip(s: string): (r: string)
    ensures Trimmed(r)
    ensures forall c :: c in r ==> c in s
  {
    var t := TrimLeft(s);
    TrimLeftSuffix(s);
    TrimRightPrefix(t);
    TrimRight(t)
  }

  /** `Strip` cuts off white space only: what it keeps sits at some position of `s`
      with nothing but white space before and after it. */
  lemma StripMeans(s: string)
    ensures exists i :: StrippedAt(s, i, Strip(s))
  {
    var t := TrimLeft(s);
    TrimLeftSuffix(s);
    TrimRightPrefix(t);
    assert StrippedAt(s, |s| - |t|, Strip(s));
  }

  /** `r` is the part of `s` at position `i`, and everything before and after it is white space. */
  predicate StrippedAt(s: string, i: nat, r: string) {
    && i + |r| <= |s| && r == s[i..i + |r|]
    && (forall k :: 0 <= k < i ==> IsSpace(s[k]))
    && (forall k :: i + |r| <= k < |s| ==> IsSpace(s[k]))
  }

  /** Stripping text that is already trimmed changes nothing. */
  lemma StripTrimmed(s: string)
    requires Trimmed(s)
    ensures Strip(s) == s
  {
    assert TrimLeft(s) == s;
    assert TrimRight(s) == s;
  }
}
