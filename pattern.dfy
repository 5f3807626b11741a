/** The labelled-field regular expressions of the field extractors, all of the shape

        key [\s*] [:=] \s* ( capture ) [context]

    searched for with `re.search`. Each is modelled twice: by a scanner (`At`, `Search`)
    that tries every start position from the left and follows each piece greedily, and
    by the regular-expression semantics stated without a scanner (`Matches`, `Leftmost`).
    The lemmas show that the two agree. They agree because the patterns are
    deterministic: the classes on either side of each `\s*` are disjoint and a greedy run
    is always followed by a character outside its class, so backtracking never finds a
    different split. */
module Pattern {
  import opened Text
  import opened Wrappers

  /** The character classes the patterns use. */
  datatype Class =
    | Space     // `\s`
    | Number    // `[-\d.]`
    | Digit     // `\d`
    | Decimal   // `[0-9.]`

  predicate In(cls: Class, c: char) {
    match cls
    case Space => IsSpace(c)
    case Number => c == '-' || c == '.' || IsDigit(c)
    case Digit => IsDigit(c)
    case Decimal => c == '.' || IsDigit(c)
  }

  /** Every character of `s` from `i` up to `j` is in `cls`. */
  predicate AllIn(s: string, i: nat, j: nat, cls: Class) {
    i <= j <= |s| && forall k :: i <= k < j ==> In(cls, s[k])
  }

  /** `[:=]` */
  predicate IsSep(c: char) { c == ':' || c == '=' }

  /** End of the longest run of `cls` characters that starts at `i`: what a greedy
      `[...]*` consumes. */
  function RunEnd(s: string, i: nat, cls: Class): (j: nat)
    requires i <= |s|
    ensures AllIn(s, i, j, cls)
    ensures j == |s| || !In(cls, s[j])
    decreases |s| - i
  {
    if i < |s| && In(cls, s[i]) then RunEnd(s, i + 1, cls) else i
  }

  lemma RunEndIs(s: string, i: nat, j: nat, cls: Class)
    requires AllIn(s, i, j, cls) && (j == |s| || !In(cls, s[j]))
    ensures RunEnd(s, i, cls) == j
  {
  }

  /** The group a pattern captures, and what must follow it. */
  datatype Capture =
    | Run(cls: Class)                      // `(cls+)`
    | RunThen(cls: Class, suffix: string)  // `(cls+)suffix`
    | RunUnit(cls: Class, unit: char)      // `(cls+)\s*unit`
    | OnOff                                // `(ON|OFF)`

  /** `key`, then `\s*` if `spaceBeforeSep`, then `[:=]\s*`, then the capture;
      `ignoreCase` is the `re.IGNORECASE` flag. */
  datatype Pattern = Pattern(key: string, spaceBeforeSep: bool, capture: Capture, ignoreCase: bool)

  /** The conditions under which backtracking cannot change a greedy split: no capture
      class contains white space, and what follows a run cannot start with a character
      of the run's class. */
  predicate Deterministic(cap: Capture) {
    match cap
    case Run(cls) => cls != Space
    case RunThen(cls, suffix) =>
      cls != Space && |suffix| > 0 && (IsAsciiLetter(suffix[0]) || !In(cls, suffix[0]))
    case RunUnit(cls, unit) =>
      cls != Space && (IsAsciiLetter(unit) || (!In(cls, unit) && !IsSpace(unit)))
    case OnOff => true
  }

  /** What any capture looks like: a non-empty run of its class, or one of the words. */
  predicate Shape(cap: Capture, ignoreCase: bool, r: string) {
    match cap
    case OnOff => (|r| == 2 && LitAt(r, 0, "ON", ignoreCase)) || (|r| == 3 && LitAt(r, 0, "OFF", ignoreCase))
    case Run(cls) => |r| > 0 && AllIn(r, 0, |r|, cls)
    case RunThen(cls, _) => |r| > 0 && AllIn(r, 0, |r|, cls)
    case RunUnit(cls, _) => |r| > 0 && AllIn(r, 0, |r|, cls)
  }

  // ---------------------------------------------------------------------------
  // The scanner

  /** The capture, when the capture part of the pattern matches at `b`. */
  function CaptureAt(s: string, b: nat, cap: Capture, ignoreCase: bool): (r: Option<string>)
    requires b <= |s|
    ensures r.Some? ==> Shape(cap, ignoreCase, r.value)
  {
    match cap
    case Run(cls) =>
      var c := RunEnd(s, b, cls);
      if c > b then Some(s[b..c]) else None
    case RunThen(cls, suffix) =>
      var c := RunEnd(s, b, cls);
      if c > b && LitAt(s, c, suffix, ignoreCase) then Some(s[b..c]) else None
    case RunUnit(cls, unit) =>
      var c := RunEnd(s, b, cls);
      var d := RunEnd(s, c, Space);
      if c > b && d < |s| && CharMatch(s[d], unit, ignoreCase) then Some(s[b..c]) else None
    case OnOff =>
      if LitAt(s, b, "ON", ignoreCase) then Some(s[b..b + 2])
      else if LitAt(s, b, "OFF", ignoreCase) then Some(s[b..b + 3])
      else None
  }

  /** The capture, when the whole pattern matches starting at position `p`. */
  function At(s: string, p: nat, pat: Pattern): (r: Option<string>)
    ensures r.Some? ==> Shape(pat.capture, pat.ignoreCase, r.value)
  {
    if !LitAt(s, p, pat.key, pat.ignoreCase) then None
    else
      var a := if pat.spaceBeforeSep then RunEnd(s, p + |pat.key|, Space) else p + |pat.key|;
      if a < |s| && IsSep(s[a]) then CaptureAt(s, RunEnd(s, a + 1, Space), pat.capture, pat.ignoreCase)
      else None
  }

  /** The first position from `p` on where the pattern matches, or `|s| + 1` when it
      matches at none. */
  function Find(s: string, pat: Pattern, p: nat): (q: nat)
    requires p <= |s| + 1
    ensures p <= q <= |s| + 1
    ensures q <= |s| ==> At(s, q, pat).Some?
    ensures forall q' :: p <= q' < q ==> At(s, q', pat).None?
    decreases |s| + 1 - p
  {
    if p == |s| + 1 || At(s, p, pat).Some? then p else Find(s, pat, p + 1)
  }

  /** `re.search(...)`, as far as its group goes: the capture at the first position
      where the pattern matches. */
  function Search(s: string, pat: Pattern): (r: Option<string>)
    ensures r.Some? ==> Shape(pat.capture, pat.ignoreCase, r.value)
  {
    var q := Find(s, pat, 0);
    if q <= |s| then At(s, q, pat) else None
  }

  // ---------------------------------------------------------------------------
  // The regular-expression semantics

  /** The text from `p` splits into the key, white space up to the separator at `a`
      (none when the pattern has no `\s*` there), and white space up to `b`. */
  ghost predicate Layout(s: string, p: nat, pat: Pattern, a: nat, b: nat) {
    && LitAt(s, p, pat.key, pat.ignoreCase)
    && p + |pat.key| <= a < b <= |s|
    && (pat.spaceBeforeSep || a == p + |pat.key|)
    && AllIn(s, p + |pat.key|, a, Space)
    && IsSep(s[a])
    && AllIn(s, a + 1, b, Space)
  }

  /** White space from `c` up to the unit character at `d`. */
  predicate UnitAt(s: string, c: nat, d: nat, unit: char, ignoreCase: bool) {
    c <= d < |s| && AllIn(s, c, d, Space) && CharMatch(s[d], unit, ignoreCase)
  }

  /** `\s*unit` matches at `c`. */
  ghost predicate UnitFollows(s: string, c: nat, unit: char, ignoreCase: bool) {
    exists d: nat :: UnitAt(s, c, d, unit, ignoreCase)
  }

  /** The capture part matches at `b` and captures `r`. A bare run is the longest one
      (Python's greedy `+`); a run followed by context may be any run the context fits. */
  ghost predicate Captures(s: string, b: nat, cap: Capture, ignoreCase: bool, r: string) {
    && |r| > 0 && b + |r| <= |s| && s[b..b + |r|] == r
    && match cap
       case Run(cls) => AllIn(s, b, b + |r|, cls) && (b + |r| == |s| || !In(cls, s[b + |r|]))
       case RunThen(cls, suffix) => AllIn(s, b, b + |r|, cls) && LitAt(s, b + |r|, suffix, ignoreCase)
       case RunUnit(cls, unit) =>
         AllIn(s, b, b + |r|, cls) && UnitFollows(s, b + |r|, unit, ignoreCase)
       case OnOff =>
         (|r| == 2 && LitAt(s, b, "ON", ignoreCase)) || (|r| == 3 && LitAt(s, b, "OFF", ignoreCase))
  }

  /** The pattern matches at `p` with capture `r`. */
  ghost predicate Matches(s: string, p: nat, pat: Pattern, r: string) {
    exists a: nat, b: nat :: Layout(s, p, pat, a, b) && Captures(s, b, pat.capture, pat.ignoreCase, r)
  }

  /** `p` is the leftmost position where the pattern matches, and `r` its capture there. */
  ghost predicate FirstAt(s: string, pat: Pattern, p: nat, r: string) {
    && Matches(s, p, pat, r)
    && forall q: nat, r': string :: q < p ==> !Matches(s, q, pat, r')
  }

  /** What `re.search(...).group(1)` yields by the semantics: the capture of the leftmost match. */
  ghost function Leftmost(s: string, pat: Pattern): Option<string> {
    if exists p: nat, r: string :: FirstAt(s, pat, p, r) then
      var p: nat, r: string :| FirstAt(s, pat, p, r); Some(r)
    else None
  }

  // ---------------------------------------------------------------------------
  // Scanner and semantics agree

  /** A capture class never holds white space, letters or separators. */
  lemma ClassChars(cls: Class, c: char)
    requires cls != Space
    ensures In(cls, c) ==> !IsSpace(c) && !IsAsciiLetter(c) && !IsSep(c)
  {
  }

  /** A character that matches a pattern letter is a letter; one that matches anything
      else is that very character. */
  lemma MatchedChar(c: char, k: char, ignoreCase: bool)
    requires CharMatch(c, k, ignoreCase)
    ensures IsAsciiLetter(k) ==> IsAsciiLetter(c)
    ensures !IsAsciiLetter(k) ==> c == k
  {
  }

  lemma RunMeans(s: string, b: nat, cls: Class, ignoreCase: bool, r: string)
    requires b <= |s| && Deterministic(Run(cls))
    ensures CaptureAt(s, b, Run(cls), ignoreCase) == Some(r) <==> Captures(s, b, Run(cls), ignoreCase, r)
  {
    if Captures(s, b, Run(cls), ignoreCase, r) {
      RunEndIs(s, b, b + |r|, cls);
    }
  }

  lemma RunThenMeans(s: string, b: nat, cls: Class, suffix: string, ignoreCase: bool, r: string)
    requires b <= |s| && Deterministic(RunThen(cls, suffix))
    ensures CaptureAt(s, b, RunThen(cls, suffix), ignoreCase) == Some(r)
        <==> Captures(s, b, RunThen(cls, suffix), ignoreCase, r)
  {
    if Captures(s, b, RunThen(cls, suffix), ignoreCase, r) {
      var c := b + |r|;
      assert CharMatch(s[c + 0], suffix[0], ignoreCase);
      MatchedChar(s[c], suffix[0], ignoreCase);
      ClassChars(cls, s[c]);
      RunEndIs(s, b, c, cls);
    }
  }

  lemma RunUnitMeans(s: string, b: nat, cls: Class, unit: char, ignoreCase: bool, r: string)
    requires b <= |s| && Deterministic(RunUnit(cls, unit))
    ensures CaptureAt(s, b, RunUnit(cls, unit), ignoreCase) == Some(r)
        <==> Captures(s, b, RunUnit(cls, unit), ignoreCase, r)
  {
    var c := RunEnd(s, b, cls);
    var d := RunEnd(s, c, Space);
    if CaptureAt(s, b, RunUnit(cls, unit), ignoreCase) == Some(r) {
      assert UnitAt(s, b + |r|, d, unit, ignoreCase);
    }
    if Captures(s, b, RunUnit(cls, unit), ignoreCase, r) {
      var c' := b + |r|;
      var d': nat :| UnitAt(s, c', d', unit, ignoreCase);
      MatchedChar(s[d'], unit, ignoreCase);
      ClassChars(cls, s[d']);
      ClassChars(cls, s[c']);
      RunEndIs(s, b, c', cls);
      RunEndIs(s, c', d', Space);
    }
  }

  lemma OnOffMeans(s: string, b: nat, ignoreCase: bool, r: string)
    requires b <= |s|
    ensures CaptureAt(s, b, OnOff, ignoreCase) == Some(r) <==> Captures(s, b, OnOff, ignoreCase, r)
  {
    if Captures(s, b, OnOff, ignoreCase, r) && |r| == 3 {
      assert CharMatch(s[b + 1], "OFF"[1], ignoreCase);
      assert !CharMatch(s[b + 1], "ON"[1], ignoreCase);
    }
  }

  lemma CaptureAtMeans(s: string, b: nat, cap: Capture, ignoreCase: bool, r: string)
    requires b <= |s| && Deterministic(cap)
    ensures CaptureAt(s, b, cap, ignoreCase) == Some(r) <==> Captures(s, b, cap, ignoreCase, r)
  {
    match cap
    case Run(cls) => RunMeans(s, b, cls, ignoreCase, r);
    case RunThen(cls, suffix) => RunThenMeans(s, b, cls, suffix, ignoreCase, r);
    case RunUnit(cls, unit) => RunUnitMeans(s, b, cls, unit, ignoreCase, r);
    case OnOff => OnOffMeans(s, b, ignoreCase, r);
  }

  /** The first character of a capture is never white space. */
  lemma CaptureStartsSolid(s: string, b: nat, cap: Capture, ignoreCase: bool, r: string)
    requires Deterministic(cap) && Captures(s, b, cap, ignoreCase, r)
    ensures b < |s| && !IsSpace(s[b])
  {
    assert s[b] == s[b..b + |r|][0];
    match cap
    case OnOff =>
      if |r| == 2 { assert CharMatch(s[b + 0], "ON"[0], ignoreCase); }
      else { assert CharMatch(s[b + 0], "OFF"[0], ignoreCase); }
    case Run(cls) => ClassChars(cls, s[b]);
    case RunThen(cls, _) => ClassChars(cls, s[b]);
    case RunUnit(cls, _) => ClassChars(cls, s[b]);
  }

  lemma AtSound(s: string, p: nat, pat: Pattern, r: string)
    requires Deterministic(pat.capture) && At(s, p, pat) == Some(r)
    ensures Matches(s, p, pat, r)
  {
    var start := p + |pat.key|;
    var a := if pat.spaceBeforeSep then RunEnd(s, start, Space) else start;
    var b := RunEnd(s, a + 1, Space);
    CaptureAtMeans(s, b, pat.capture, pat.ignoreCase, r);
    assert Layout(s, p, pat, a, b);
  }

  /** Once the key, the separator and the white space around it are laid out, the
      scanner's answer is that of the capture part at `b`. */
  lemma AtLayout(s: string, p: nat, pat: Pattern, a: nat, b: nat)
    requires Layout(s, p, pat, a, b) && (b == |s| || !IsSpace(s[b]))
    ensures At(s, p, pat) == CaptureAt(s, b, pat.capture, pat.ignoreCase)
  {
    if pat.spaceBeforeSep { RunEndIs(s, p + |pat.key|, a, Space); }
    RunEndIs(s, a + 1, b, Space);
  }

  lemma AtComplete(s: string, p: nat, pat: Pattern, r: string)
    requires Deterministic(pat.capture) && Matches(s, p, pat, r)
    ensures At(s, p, pat) == Some(r)
  {
    var a: nat, b: nat :| Layout(s, p, pat, a, b) && Captures(s, b, pat.capture, pat.ignoreCase, r);
    CaptureStartsSolid(s, b, pat.capture, pat.ignoreCase, r);
    AtLayout(s, p, pat, a, b);
    CaptureAtMeans(s, b, pat.capture, pat.ignoreCase, r);
  }

  /** The scanner finds a capture at `p` exactly when the pattern matches there with
      that capture. */
  lemma AtMeans(s: string, p: nat, pat: Pattern, r: string)
    requires Deterministic(pat.capture)
    ensures At(s, p, pat) == Some(r) <==> Matches(s, p, pat, r)
  {
    if At(s, p, pat) == Some(r) { AtSound(s, p, pat, r); }
    if Matches(s, p, pat, r) { AtComplete(s, p, pat, r); }
  }

  /** Each pattern has at most one capture at a given start: the regular expression
      is deterministic. */
  lemma MatchDeterministic(s: string, p: nat, pat: Pattern, r1: string, r2: string)
    requires Deterministic(pat.capture)
    requires Matches(s, p, pat, r1) && Matches(s, p, pat, r2)
    ensures r1 == r2
  {
    AtMeans(s, p, pat, r1);
    AtMeans(s, p, pat, r2);
  }

  /** The choice `Leftmost` makes is a leftmost match. */
  lemma LeftmostChoice(s: string, pat: Pattern)
    ensures Leftmost(s, pat).Some? ==> exists p: nat :: FirstAt(s, pat, p, Leftmost(s, pat).value)
    ensures Leftmost(s, pat).None? ==> forall p: nat, r: string :: !FirstAt(s, pat, p, r)
  {
  }

  /** The scanner's search yields the capture of the leftmost match, and nothing when
      the pattern matches nowhere. */
  lemma SearchIsLeftmost(s: string, pat: Pattern)
    requires Deterministic(pat.capture)
    ensures Search(s, pat) == Leftmost(s, pat)
  {
    var q := Find(s, pat, 0);
    forall q': nat, r': string | q' < q ensures !Matches(s, q', pat, r') {
      AtMeans(s, q', pat, r');
    }
    LeftmostChoice(s, pat);
    if q <= |s| {
      var r := At(s, q, pat).value;
      AtMeans(s, q, pat, r);
      assert FirstAt(s, pat, q, r);
      var q2: nat :| FirstAt(s, pat, q2, Leftmost(s, pat).value);
      assert q2 == q;
      MatchDeterministic(s, q, pat, r, Leftmost(s, pat).value);
    } else {
      forall p: nat, r: string ensures !Matches(s, p, pat, r) {
        AtMeans(s, p, pat, r);
      }
    }
  }
}
