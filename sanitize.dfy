/** The response sanitiser shared by both monitor scripts: `clean_response` deletes
    terminal escape sequences of the form ESC `[` parameters letter (a restricted form
    of the control sequence of section 5.4 of ECMA-48), then deletes every character
    outside an allowed set, then strips white space from both ends. The two scripts
    differ only in the allowed set. */
module Sanitize {
  import opened Text

  const Esc: char := '\U{1b}'

  /** `[0-9;]`: the parameter characters the escape pattern accepts. */
  predicate IsParam(c: char) { IsDigit(c) || c == ';' }

  /** `t` is one whole match of `\x1B\[[0-9;]*[a-zA-Z]`. */
  predicate IsCsi(t: string) {
    && |t| >= 3 && t[0] == Esc && t[1] == '['
    && IsAsciiLetter(t[|t| - 1])
    && forall k :: 2 <= k < |t| - 1 ==> IsParam(t[k])
  }

  /** End of the run of parameter characters that starts at `i`. */
  function ParamEnd(s: string, i: nat): (j: nat)
    requires i <= |s|
    ensures i <= j <= |s|
    ensures forall k :: i <= k < j ==> IsParam(s[k])
    ensures j == |s| || !IsParam(s[j])
    decreases |s| - i
  {
    if i < |s| && IsParam(s[i]) then ParamEnd(s, i + 1) else i
  }

  /** Length of the escape sequence the pattern matches at the start of `s`, or 0 when
      it matches none there. The match, when there is one, is the only prefix of `s`
      that is an escape sequence. */
  function CsiLength(s: string): (n: nat)
    ensures n <= |s|
    ensures forall m :: 0 < m <= |s| ==> (IsCsi(s[..m]) <==> m == n)
  {
    if 2 <= |s| && s[0] == Esc && s[1] == '[' then
      var j := ParamEnd(s, 2);
      if j < |s| && IsAsciiLetter(s[j]) then
        assert IsCsi(s[..j + 1]);
        assert forall m, k :: 0 <= k < m <= |s| ==> s[..m][k] == s[k];
        j + 1
      else
        assert forall m, k :: 0 <= k < m <= |s| ==> s[..m][k] == s[k];
        0
    else
      0
  }

  /** `re.sub(r'\x1B\[[0-9;]*[a-zA-Z]', '', s)`: scanning left to right, every escape
      sequence is deleted and the scan resumes after it. */
  function RemoveCsi(s: string): (r: string)
    ensures |r| <= |s|
    decreases |s|
  {
    if s == [] then []
    else
      var n := CsiLength(s);
      if n > 0 then RemoveCsi(s[n..]) else [s[0]] + RemoveCsi(s[1..])
  }

  /** An escape sequence at the start is deleted whole, and the scan resumes after it. */
  lemma CsiDeleted(c: string, b: string)
    requires IsCsi(c)
    ensures RemoveCsi(c + b) == RemoveCsi(b)
  {
    var s := c + b;
    assert s[..|c|] == c;
    assert s[|c|..] == b;
  }

  /** Text up to the first ESC is kept, an escape sequence starting there is deleted, and
      the rest is scanned on: `"\x1b[31mOK\x1b[0m"` comes out as "OK". */
  lemma {:induction false} RemoveCsiSkips(a: string, c: string, b: string)
    requires Esc !in a && IsCsi(c)
    ensures RemoveCsi(a + c + b) == a + RemoveCsi(b)
    decreases |a|
  {
    if a == [] {
      assert a + c + b == c + b;
      CsiDeleted(c, b);
      EmptyPrefix(RemoveCsi(b));
    } else {
      var rest := c + b;
      assert a + c + b == a + rest && a[1..] + c + b == a[1..] + rest;
      PlainPrefix(a, rest);
      RemoveCsiSkips(a[1..], c, b);
      FirstAndRest(a, RemoveCsi(b));
    }
  }

  // Two steps of sequence algebra, each in a lemma of its own.
  lemma EmptyPrefix(x: string)
    ensures [] + x == x
  {
  }

  lemma FirstAndRest(a: string, x: string)
    requires a != []
    ensures [a[0]] + (a[1..] + x) == a + x
  {
    assert a == [a[0]] + a[1..];
  }

  /** The first character of text that does not start with ESC is kept, whatever follows. */
  lemma PlainPrefix(a: string, rest: string)
    requires a != [] && a[0] != Esc
    ensures RemoveCsi(a + rest) == [a[0]] + RemoveCsi(a[1..] + rest)
  {
    var s := a + rest;
    assert s[0] == a[0] && s[1..] == a[1..] + rest;
    RemoveCsiPlainFirst(s);
  }

  /** A first character other than ESC starts no escape sequence and is kept. */
  lemma RemoveCsiPlainFirst(s: string)
    requires s != [] && s[0] != Esc
    ensures RemoveCsi(s) == [s[0]] + RemoveCsi(s[1..])
  {
    assert CsiLength(s) == 0;
  }

  /** Where no escape sequence starts, the character is kept, a lone ESC included. */
  lemma RemoveCsiKeeps(s: string)
    requires s != [] && forall m :: 0 < m <= |s| ==> !IsCsi(s[..m])
    ensures RemoveCsi(s) == [s[0]] + RemoveCsi(s[1..])
  {
    var n := CsiLength(s);
    assert !IsCsi(s[..n]) || n == 0;
  }

  /** Text without an ESC character has no escape sequence to delete. */
  lemma {:induction false} RemoveCsiWithoutEsc(s: string)
    requires Esc !in s
    ensures RemoveCsi(s) == s
    decreases |s|
  {
    if s != [] {
      RemoveCsiPlainFirst(s);
      RemoveCsiWithoutEsc(s[1..]);
    }
  }

  /** The character sets that survive the second substitution. */
  datatype Charset =
    | PrintableOrLineBreak   // `[\x20-\x7E\n\r]`
    | Printable              // `[\x20-\x7E]`

  predicate Allowed(cs: Charset, c: char) {
    match cs
    case PrintableOrLineBreak => ' ' <= c <= '~' || c == '\n' || c == '\r'
    case Printable => ' ' <= c <= '~'
  }

  /** `re.sub(r'[^...]', '', s)`: deletes every character outside `cs`. */
  function KeepOnly(s: string, cs: Charset): (r: string)
    ensures |r| <= |s|
    ensures forall c :: c in r ==> Allowed(cs, c) && c in s
    ensures (forall c :: c in s ==> Allowed(cs, c)) ==> r == s
  {
    if s == [] then []
    else if Allowed(cs, s[0]) then [s[0]] + KeepOnly(s[1..], cs)
    else KeepOnly(s[1..], cs)
  }

  /** The second substitution works character by character: it deletes from each piece
      of the text what it deletes from the whole. */
  lemma {:induction false} KeepOnlyAppend(a: string, b: string, cs: Charset)
    ensures KeepOnly(a + b, cs) == KeepOnly(a, cs) + KeepOnly(b, cs)
    decreases |a|
  {
    if a == [] {
      assert a + b == b;
    } else {
      assert (a + b)[0] == a[0] && (a + b)[1..] == a[1..] + b;
      KeepOnlyAppend(a[1..], b, cs);
    }
  }

  /** A single character survives exactly when it is allowed. */
  lemma KeepOnlyOne(c: char, cs: Charset)
    ensures KeepOnly([c], cs) == if Allowed(cs, c) then [c] else []
  {
  }

  /** `clean_response` for the allowed set `cs`: the result holds only allowed characters
      (so no ESC) and has no white space at either end. */
  function Clean(s: string, cs: Charset): (r: string)
    ensures forall c :: c in r ==> Allowed(cs, c)
    ensures Esc !in r
    ensures Trimmed(r)
  {
    Strip(KeepOnly(RemoveCsi(s), cs))
  }

  /** Cleaning is idempotent: cleaned text passes through unchanged. */
  lemma CleanIdempotent(s: string, cs: Charset)
    ensures Clean(Clean(s, cs), cs) == Clean(s, cs)
  {
    var t := Clean(s, cs);
    RemoveCsiWithoutEsc(t);
    StripTrimmed(t);
  }

  /** The escape sequences that set the colour red and reset it. */
  const Red: string := "\U{1b}[31m"
  const Reset: string := "\U{1b}[0m"

  lemma ColourCodes()
    ensures IsCsi(Red) && IsCsi(Reset)
  {
    assert IsParam(Red[2]) && IsParam(Red[3]) && IsAsciiLetter(Red[4]);
    assert IsParam(Reset[2]) && IsAsciiLetter(Reset[3]);
  }

  /** Escape sequences around a text are deleted and the text is kept. */
  lemma Enclosed(open: string, text: string, close: string)
    requires IsCsi(open) && IsCsi(close) && Esc !in text
    ensures RemoveCsi(open + text + close) == text
  {
    assert open + text + close == open + (text + close);
    CsiDeleted(open, text + close);
    RemoveCsiSkips(text, close, []);
    assert text + close + [] == text + close;
    assert RemoveCsi([]) == [];
  }

  /** Cleaning a coloured reading leaves the reading, with either set. */
  lemma ColourCodesRemoved(text: string, cs: Charset)
    requires Esc !in text && Trimmed(text) && forall c :: c in text ==> Allowed(cs, c)
    ensures Clean(Red + text + Reset, cs) == text
  {
    ColourCodes();
    Enclosed(Red, text, Reset);
    StripTrimmed(text);
  }

  /** For example, a red voltage reading. */
  lemma ColouredVoltage(cs: Charset)
    ensures Clean(Red + "Voltage: 12" + Reset, cs) == "Voltage: 12"
  {
    var text := "Voltage: 12";
    assert text == ['V', 'o', 'l', 't', 'a', 'g', 'e', ':', ' ', '1', '2'];
    ColourCodesRemoved(text, cs);
  }

  /** A two-line reply holds no control sequence. */
  lemma TwoLinesWithoutCsi()
    ensures RemoveCsi("A\r\nB") == "A\r\nB"
  {
    var s := "A\r\nB";
    assert s == ['A', '\r', '\n', 'B'];
    RemoveCsiWithoutEsc(s);
  }

  /** The first set keeps the line breaks inside a two-line reply. */
  lemma LineBreaksKept()
    ensures Clean("A\r\nB", PrintableOrLineBreak) == "A\r\nB"
  {
    TwoLinesWithoutCsi();
    StripTrimmed("A\r\nB");
  }

  /** The second substitution, with the second set, deletes both line-break characters. */
  lemma KeepOnlyDropsLineBreaks()
    ensures KeepOnly("A\r\nB", Printable) == "AB"
  {
    var s := "A\r\nB";
    assert s[1..] == "\r\nB" && s[2..] == "\nB" && s[3..] == "B" && s[4..] == [];
    assert KeepOnly(s[3..], Printable) == "B";
    assert KeepOnly(s[2..], Printable) == "B";
    assert KeepOnly(s[1..], Printable) == "B";
  }

  /** The second set deletes them, and the two lines run together. */
  lemma LineBreaksDropped()
    ensures Clean("A\r\nB", Printable) == "AB"
  {
    calc {
      Clean("A\r\nB", Printable);
      Strip(KeepOnly(RemoveCsi("A\r\nB"), Printable));
      { TwoLinesWithoutCsi(); }
      Strip(KeepOnly("A\r\nB", Printable));
      { KeepOnlyDropsLineBreaks(); }
      Strip("AB");
      { StripTrimmed("AB"); }
      "AB";
    }
  }
}
