/** Text primitives the application relies on, written out the way Python
    defines them: str.isspace/str.strip, str.lower, the `in` substring test,
    str.split(':')[0], int() on a decimal literal and f"{n}" on a natural. */
module Strings {

  datatype Option<T> = None | Some(value: T)

  // ---------------------------------------------------------------------
  // Whitespace and str.strip()

  /** The characters for which Python's str.isspace() holds; str.strip()
      with no argument removes exactly these from both ends. */
  predicate IsSpace(c: char) {
    c == ' ' || ('\t' <= c <= '\r') || ('\U{1C}' <= c <= '\U{1F}')
    || c == '\U{85}' || c == '\U{A0}' || c == '\U{1680}'
    || ('\U{2000}' <= c <= '\U{200A}') || c == '\U{2028}' || c == '\U{2029}'
    || c == '\U{202F}' || c == '\U{205F}' || c == '\U{3000}'
  }

  /** True when every character of `s` is whitespace (also when `s` is empty). */
  predicate Blank(s: string) {
    forall i :: 0 <= i < |s| ==> IsSpace(s[i])
  }

  /** str.lstrip(): `s` without its leading whitespace. */
  function TrimLeft(s: string): (r: string)
    ensures |r| <= |s|
    ensures r != [] ==> !IsSpace(r[0])
  {
    if s != [] && IsSpace(s[0]) then TrimLeft(s[1..]) else s
  }

  /** str.rstrip(): `s` without its trailing whitespace. */
  function TrimRight(s: string): (r: string)
    ensures |r| <= |s|
    ensures r != [] ==> !IsSpace(r[|r| - 1])
  {
    if s != [] && IsSpace(s[|s| - 1]) then TrimRight(s[..|s| - 1]) else s
  }

  /** lstrip keeps a suffix and what it removes is all whitespace. */
  lemma {:induction false} TrimLeftRemovesSpace(s: string)
    ensures TrimLeft(s) == s[|s| - |TrimLeft(s)|..]
    ensures Blank(s[..|s| - |TrimLeft(s)|])
  {
    if s != [] && IsSpace(s[0]) {
      var r := TrimLeft(s[1..]);
      TrimLeftRemovesSpace(s[1..]);
      assert s[..|s| - |r|] == [s[0]] + s[1..][..|s[1..]| - |r|];
      BlankConcat([s[0]], s[1..][..|s[1..]| - |r|]);
    }
  }

  /** rstrip keeps a prefix and what it removes is all whitespace. */
  lemma {:induction false} TrimRightRemovesSpace(s: string)
    ensures TrimRight(s) == s[..|TrimRight(s)|]
    ensures Blank(s[|TrimRight(s)|..])
  {
    if s != [] && IsSpace(s[|s| - 1]) {
      var r := TrimRight(s[..|s| - 1]);
      TrimRightRemovesSpace(s[..|s| - 1]);
      assert s[|r|..] == s[..|s| - 1][|r|..] + [s[|s| - 1]];
      BlankConcat(s[..|s| - 1][|r|..], [s[|s| - 1]]);
    }
  }

  /** Two all-whitespace strings make an all-whitespace string. */
  lemma BlankConcat(a: string, b: string)
    requires Blank(a) && Blank(b)
    ensures Blank(a + b)
  {
    forall i | 0 <= i < |a + b| ensures IsSpace((a + b)[i]) {
      if i < |a| { assert (a + b)[i] == a[i]; } else { assert (a + b)[i] == b[i - |a|]; }
    }
  }

  /** str.strip(): `s` with leading and trailing whitespace removed. */
  function Strip(s: string): (r: string)
    ensures |r| <= |s|
    ensures r != [] ==> !IsSpace(r[0]) && !IsSpace(r[|r| - 1])
  {
    var l := TrimLeft(s);
    var r := TrimRight(l);
    TrimRightRemovesSpace(l);
    assert r != [] ==> r[0] == l[0];
    r
  }

  /** What Strip keeps is an infix of `s` with only whitespace around it;
      `i` is where it starts. */
  lemma StripInfix(s: string) returns (i: nat)
    ensures i + |Strip(s)| <= |s| && Strip(s) == s[i..i + |Strip(s)|]
    ensures Blank(s[..i]) && Blank(s[i + |Strip(s)|..])
  {
    var l := TrimLeft(s);
    var r := TrimRight(l);
    TrimLeftRemovesSpace(s);
    TrimRightRemovesSpace(l);
    i := |s| - |l|;
    assert s[i..i + |r|] == l[..|r|];
    assert s[i + |r|..] == l[|r|..];
  }

  lemma {:induction false} TrimLeftBlank(s: string)
    ensures TrimLeft(s) == [] <==> Blank(s)
  {
    if s != [] && IsSpace(s[0]) {
      TrimLeftBlank(s[1..]);
      if Blank(s[1..]) {
        forall i | 0 <= i < |s| ensures IsSpace(s[i]) {
          if i > 0 { assert s[i] == s[1..][i - 1]; }
        }
      } else {
        var j :| 0 <= j < |s[1..]| && !IsSpace(s[1..][j]);
        assert s[j + 1] == s[1..][j];
      }
    }
  }

  /** A string strips to nothing exactly when it is all whitespace. */
  lemma StripEmptyIffBlank(s: string)
    ensures Strip(s) == [] <==> Blank(s)
  {
    TrimLeftBlank(s);
    var l := TrimLeft(s);
    if l != [] {
      TrimRightRemovesSpace(l);
      assert !IsSpace(l[0]);
      assert TrimRight(l) != [];
    }
  }

  lemma {:induction false} TrimLeftAppend(s: string, t: string)
    requires !Blank(s)
    ensures TrimLeft(s + t) == TrimLeft(s) + t
  {
    assert s != [];
    if IsSpace(s[0]) {
      assert (s + t)[1..] == s[1..] + t;
      assert !Blank(s[1..]) by {
        var i :| 0 <= i < |s| && !IsSpace(s[i]);
        assert i > 0 && s[1..][i - 1] == s[i];
      }
      TrimLeftAppend(s[1..], t);
    }
  }

  lemma {:induction false} TrimRightAppendBlank(s: string, t: string)
    requires Blank(t)
    ensures TrimRight(s + t) == TrimRight(s)
  {
    if t != [] {
      assert (s + t)[..|s + t| - 1] == s + t[..|t| - 1];
      assert Blank(t[..|t| - 1]) by {
        var u := t[..|t| - 1];
        forall i | 0 <= i < |u| ensures IsSpace(u[i]) { assert u[i] == t[i]; }
      }
      TrimRightAppendBlank(s, t[..|t| - 1]);
    } else {
      assert s + t == s;
    }
  }

  /** Appending whitespace never changes what a string strips to; the Tk
      text widget's trailing newline is the case that matters here. */
  lemma StripAppendBlank(s: string, t: string)
    requires Blank(t)
    ensures Strip(s + t) == Strip(s)
  {
    if Blank(s) {
      BlankConcat(s, t);
      StripEmptyIffBlank(s);
      StripEmptyIffBlank(s + t);
    } else {
      TrimLeftAppend(s, t);
      TrimRightAppendBlank(TrimLeft(s), t);
    }
  }

  /** A string that has a non-space character keeps it whatever is appended. */
  lemma NonBlankAppend(s: string, t: string)
    requires !Blank(s)
    ensures !Blank(s + t)
  {
    var i :| 0 <= i < |s| && !IsSpace(s[i]);
    assert (s + t)[i] == s[i];
  }

  /** A string whose tail has a non-space character is not blank. */
  lemma NonBlankPrepend(s: string, t: string)
    requires !Blank(t)
    ensures !Blank(s + t)
  {
    var i :| 0 <= i < |t| && !IsSpace(t[i]);
    assert (s + t)[|s| + i] == t[i];
  }

  // ---------------------------------------------------------------------
  // str.lower() and the `in` substring test

  /** Lower-case of one character (ASCII letters only are mapped). */
  function LowerChar(c: char): char {
    if 'A' <= c <= 'Z' then (c as int - 'A' as int + 'a' as int) as char else c
  }

  /** str.lower() restricted to ASCII case mapping. */
  function Lower(s: string): (r: string)
    ensures |r| == |s|
  {
    if s == [] then [] else [LowerChar(s[0])] + Lower(s[1..])
  }

  /** Each character is lower-cased on its own, and no ASCII capital is left. */
  lemma {:induction false} LowerPointwise(s: string)
    ensures forall i :: 0 <= i < |s| ==> Lower(s)[i] == LowerChar(s[i]) && !('A' <= Lower(s)[i] <= 'Z')
  {
    if s != [] {
      LowerPointwise(s[1..]);
      forall i | 0 <= i < |s| ensures Lower(s)[i] == LowerChar(s[i]) {
        if i > 0 { assert Lower(s)[i] == Lower(s[1..])[i - 1]; }
      }
    }
  }


  /** `p` occurs in `s` starting at position `i`. */
  predicate OccursAt(s: string, p: string, i: nat) {
    i + |p| <= |s| && s[i..i + |p|] == p
  }

  /** `p` occurs somewhere in `s`. */
  predicate Occurs(s: string, p: string) {
    exists i: nat :: i <= |s| && OccursAt(s, p, i)
  }

  /** Python's `p in s` for strings, as a scan from the left. */
  function Contains(s: string, p: string): bool
    decreases |s|
  {
    if |p| > |s| then false else s[..|p|] == p || Contains(s[1..], p)
  }

  /** The scan finds `p` exactly when `p` occurs somewhere in `s`. */
  lemma {:induction false} ContainsIffOccurs(s: string, p: string)
    ensures Contains(s, p) <==> Occurs(s, p)
    decreases |s|
  {
    if |p| > |s| {
      forall i: nat | i <= |s| ensures !OccursAt(s, p, i) { }
    } else if s[..|p|] == p {
      assert OccursAt(s, p, 0);
    } else {
      ContainsIffOccurs(s[1..], p);
      if Contains(s[1..], p) {
        var i: nat :| i <= |s[1..]| && OccursAt(s[1..], p, i);
        TailSlice(s, i, i + |p|);
        assert OccursAt(s, p, i + 1);
      } else {
        forall i: nat | i <= |s| ensures !OccursAt(s, p, i) {
          if i == 0 {
            assert s[0..|p|] == s[..|p|];
          } else if i + |p| <= |s| {
            TailSlice(s, i - 1, i - 1 + |p|);
            assert !OccursAt(s[1..], p, i - 1);
          }
        }
      }
    }
  }

  /** A slice of the tail is the slice of the whole shifted by one. */
  lemma TailSlice(s: string, i: nat, j: nat)
    requires s != [] && i <= j <= |s| - 1
    ensures s[1..][i..j] == s[i + 1..j + 1]
  {
    var a := s[1..][i..j];
    var b := s[i + 1..j + 1];
    assert |a| == |b|;
    forall k | 0 <= k < |a| ensures a[k] == b[k] {
      assert a[k] == s[1..][i + k] == s[i + 1 + k];
    }
  }

  // ---------------------------------------------------------------------
  // str.split(':')[0]

  /** The first field of str.split(':'): everything before the first colon,
      or the whole string when it has none. */
  function BeforeColon(s: string): (r: string)
    ensures |r| <= |s| && r == s[..|r|]
    ensures ':' !in r
    ensures |r| < |s| ==> s[|r|] == ':'
  {
    if s == [] || s[0] == ':' then [] else [s[0]] + BeforeColon(s[1..])
  }

  /** A colon-free head followed by a colon is exactly what the split keeps. */
  lemma {:induction false} BeforeColonOfPrefix(a: string, b: string)
    requires ':' !in a && b != [] && b[0] == ':'
    ensures BeforeColon(a + b) == a
  {
    if a != [] {
      assert (a + b)[0] == a[0] && (a + b)[1..] == a[1..] + b;
      BeforeColonOfPrefix(a[1..], b);
      assert a == [a[0]] + a[1..];
    } else {
      assert a + b == b;
    }
  }

  // ---------------------------------------------------------------------
  // Decimal numerals: f"{n}" and int()

  predicate IsDigit(c: char) { '0' <= c <= '9' }

  predicate AllDigits(s: string) { forall i :: 0 <= i < |s| ==> IsDigit(s[i]) }

  function DigitValue(c: char): (d: nat)
    requires IsDigit(c)
    ensures d < 10
  {
    c as int - '0' as int
  }

  function DigitChar(d: nat): (c: char)
    requires d < 10
    ensures IsDigit(c) && DigitValue(c) == d
  {
    ('0' as int + d) as char
  }

  /** The value of a string of decimal digits, most significant first. */
  function DigitsValue(s: string): nat
    requires AllDigits(s)
  {
    if s == [] then 0 else DigitsValue(s[..|s| - 1]) * 10 + DigitValue(s[|s| - 1])
  }

  /** f"{n}" for a natural number: its shortest decimal numeral. */
  function Decimal(n: nat): (r: string)
    ensures |r| >= 1 && AllDigits(r)
    ensures r[0] != '0' || n == 0
  {
    if n < 10 then [DigitChar(n)] else Decimal(n / 10) + [DigitChar(n % 10)]
  }

  /** Reading back the numeral of `n` gives `n`. */
  lemma {:induction false} DecimalRoundTrip(n: nat)
    ensures DigitsValue(Decimal(n)) == n
  {
    if n >= 10 {
      var s := Decimal(n);
      assert s[..|s| - 1] == Decimal(n / 10);
      DecimalRoundTrip(n / 10);
    }
  }

  /** The four information separators U+001C..U+001F. str.isspace() holds
      for them, so str.strip() removes them, but int() does not skip them as
      whitespace and rejects any string that holds one. */
  predicate IsInfoSeparator(c: char) {
    '\U{1C}' <= c <= '\U{1F}'
  }

  /** int(s): the value of the literal (optional surrounding whitespace, an
      optional sign, then at least one digit), or None where Python raises
      ValueError. */
  function ParseInt(s: string): (r: Option<int>)
    ensures r.Some? ==> forall i :: 0 <= i < |s| ==> !IsInfoSeparator(s[i])
  {
    if exists i :: 0 <= i < |s| && IsInfoSeparator(s[i]) then None
    else
      var t := Strip(s);
      if t != [] && AllDigits(t) then Some(DigitsValue(t))
      else if |t| >= 2 && (t[0] == '+' || t[0] == '-') && AllDigits(t[1..]) then
        var v: int := DigitsValue(t[1..]);
        Some(if t[0] == '-' then -v else v)
      else None
  }

  /** An information separator anywhere, even at an end that str.strip()
      would remove, makes int() fail. */
  lemma InfoSeparatorRejected(s: string, i: nat)
    requires i < |s| && IsInfoSeparator(s[i])
    ensures ParseInt(s) == None
  {
  }

  /** A string of digits contains no whitespace and so strips to itself. */
  lemma DigitsStripToThemselves(s: string)
    requires s != [] && AllDigits(s)
    ensures Strip(s) == s
  {
    assert !IsSpace(s[0]);
    assert TrimLeft(s) == s;
    assert !IsSpace(s[|s| - 1]);
  }

  /** int(f"{n}") == n. */
  lemma ParseDecimal(n: nat)
    ensures ParseInt(Decimal(n)) == Some(n)
  {
    DigitsStripToThemselves(Decimal(n));
    DecimalRoundTrip(n);
  }

  /** A string with no digit at all is never an integer literal. */
  lemma NoDigitNoInt(s: string)
    requires forall i :: 0 <= i < |s| ==> !IsDigit(s[i])
    ensures ParseInt(s) == None
  {
    var t := Strip(s);
    var j := StripInfix(s);
    if t != [] {
      assert !IsDigit(t[0]) by { assert t[0] == s[j]; }
      if |t| >= 2 {
        assert !IsDigit(t[1]) by { assert t[1] == s[j + 1]; }
        assert t[1..][0] == t[1];
      }
    }
  }
}
