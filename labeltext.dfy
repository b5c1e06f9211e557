/** The text transformations et_parse_func.py applies to plate-map labels,
    standard names and column headers: `re.sub(r'[^\w]', '', x)`,
    `x.lower()`, `x.replace(' ', '')`, the digit stripping of the map
    check, and `str(int(x))` for header cells. Characters are ASCII here. */
module LabelText {
  import opened Basics

  /** A character matched by `\w`. */
  predicate IsWordChar(c: char) {
    'a' <= c <= 'z' || 'A' <= c <= 'Z' || '0' <= c <= '9' || c == '_'
  }

  /** A character a normalised label may hold. */
  predicate IsLabelChar(c: char) {
    'a' <= c <= 'z' || '0' <= c <= '9' || c == '_'
  }

  predicate IsDigit(c: char) {
    '0' <= c <= '9'
  }

  /** `re.sub(r'[^\w]', '', s)`: the word characters of `s`, in order. */
  function WordChars(s: string): string
    decreases |s|
  {
    if |s| == 0 then ""
    else WordChars(s[..|s| - 1]) + (if IsWordChar(s[|s| - 1]) then [s[|s| - 1]] else "")
  }

  function LowerChar(c: char): char {
    if 'A' <= c <= 'Z' then (c as int + 32) as char else c
  }

  /** `s.lower()`. */
  function Lower(s: string): (t: string)
    ensures |t| == |s|
    ensures forall i :: 0 <= i < |s| ==> t[i] == LowerChar(s[i])
  {
    seq(|s|, i requires 0 <= i < |s| => LowerChar(s[i]))
  }

  /** `s.replace(' ', '')`. */
  function RemoveSpaces(s: string): string
    decreases |s|
  {
    if |s| == 0 then ""
    else RemoveSpaces(s[..|s| - 1]) + (if s[|s| - 1] == ' ' then "" else [s[|s| - 1]])
  }

  /** The label normalisation of extract_data_map and extract_specification:
      drop non-word characters, lower-case, drop spaces. */
  function Normalise(s: string): string {
    RemoveSpaces(Lower(WordChars(s)))
  }

  lemma {:induction false} WordCharsAreWordChars(s: string)
    ensures forall c :: c in WordChars(s) ==> IsWordChar(c)
    decreases |s|
  {
    if |s| > 0 {
      WordCharsAreWordChars(s[..|s| - 1]);
    }
  }

  lemma {:induction false} WordCharsKeepsWords(s: string)
    requires forall c :: c in s ==> IsWordChar(c)
    ensures WordChars(s) == s
    decreases |s|
  {
    if |s| > 0 {
      assert s[|s| - 1] in s;
      assert forall c :: c in s[..|s| - 1] ==> c in s;
      WordCharsKeepsWords(s[..|s| - 1]);
      assert s == s[..|s| - 1] + [s[|s| - 1]];
    }
  }

  lemma {:induction false} RemoveSpacesKeepsSpaceless(s: string)
    requires forall i :: 0 <= i < |s| ==> s[i] != ' '
    ensures RemoveSpaces(s) == s
    decreases |s|
  {
    if |s| > 0 {
      RemoveSpacesKeepsSpaceless(s[..|s| - 1]);
      assert s == s[..|s| - 1] + [s[|s| - 1]];
    }
  }

  /** Lower-casing the word characters leaves only label characters, and
      no spaces: the space-removal step never changes anything. */
  lemma LoweredWords(s: string)
    ensures forall c :: c in Lower(WordChars(s)) ==> IsLabelChar(c)
    ensures RemoveSpaces(Lower(WordChars(s))) == Lower(WordChars(s))
  {
    WordCharsAreWordChars(s);
    var w := WordChars(s);
    var l := Lower(w);
    forall c | c in l ensures IsLabelChar(c) {
      var i :| 0 <= i < |l| && l[i] == c;
      assert w[i] in w;
    }
    forall i | 0 <= i < |l| ensures l[i] != ' ' {
      assert l[i] in l;
    }
    RemoveSpacesKeepsSpaceless(l);
  }

  /** A normalised label holds only lower-case letters, digits and `_`. */
  lemma NormaliseIsLabel(s: string)
    ensures forall c :: c in Normalise(s) ==> IsLabelChar(c)
  {
    LoweredWords(s);
  }

  /** Normalising a normalised label changes nothing. */
  lemma NormaliseIdempotent(s: string)
    ensures Normalise(Normalise(s)) == Normalise(s)
  {
    var t := Normalise(s);
    NormaliseIsLabel(s);
    WordCharsKeepsWords(t);
    forall i | 0 <= i < |t| ensures LowerChar(t[i]) == t[i] && t[i] != ' ' {
      assert t[i] in t;
    }
    assert Lower(t) == t;
    RemoveSpacesKeepsSpaceless(t);
  }

  /** `x.translate(remove_digits)`: `s` without its decimal digits. */
  function StripDigits(s: string): string
    decreases |s|
  {
    if |s| == 0 then ""
    else StripDigits(s[..|s| - 1]) + (if IsDigit(s[|s| - 1]) then "" else [s[|s| - 1]])
  }

  predicate AllDigits(s: string) {
    forall i :: 0 <= i < |s| ==> IsDigit(s[i])
  }

  /** The number a string of decimal digits denotes. */
  function DigitsValue(s: string): nat
    requires AllDigits(s)
    decreases |s|
  {
    if |s| == 0 then 0 else DigitsValue(s[..|s| - 1]) * 10 + (s[|s| - 1] as int - '0' as int)
  }

  function DigitChar(d: nat): char
    requires d < 10
  {
    ('0' as int + d) as char
  }

  /** `str(n)` for a natural number: its decimal digits, no leading zero. */
  function NatToString(n: nat): (s: string)
    ensures |s| > 0 && AllDigits(s)
    ensures |s| > 1 ==> s[0] != '0'
    decreases n
  {
    if n < 10 then [DigitChar(n)] else NatToString(n / 10) + [DigitChar(n % 10)]
  }

  /** Reading back the printed digits gives the number. */
  lemma {:induction false} NatToStringRoundTrip(n: nat)
    ensures DigitsValue(NatToString(n)) == n
    decreases n
  {
    if n >= 10 {
      NatToStringRoundTrip(n / 10);
      var s := NatToString(n);
      assert s[..|s| - 1] == NatToString(n / 10);
    }
  }

  /** `str(i)` for an integer. */
  function IntToString(i: int): string {
    if i < 0 then "-" + NatToString(-i) else NatToString(i)
  }

  /** `int(x)` for a float: truncation toward zero. */
  function Trunc(x: real): (t: int)
    ensures 0.0 <= x ==> 0 <= t && t as real <= x < t as real + 1.0
    ensures x < 0.0 ==> t <= 0 && t as real - 1.0 < x <= t as real
  {
    if x >= 0.0 then x.Floor else -((-x).Floor)
  }
}
