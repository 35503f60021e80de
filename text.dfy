/** Character classes and string helpers that the regular expressions and
    `String.prototype.trim` of the storefront reduce to. */
module Text {

  /** The characters matched by `\s` in an ECMAScript regular expression and
      removed by `trim()`: the WhiteSpace and LineTerminator code points. */
  predicate IsSpace(c: char) {
    || c == '\t' || c == '\n' || c == '\U{000B}' || c == '\U{000C}' || c == '\r'
    || c == ' ' || c == '\U{00A0}' || c == '\U{1680}'
    || ('\U{2000}' <= c <= '\U{200A}')
    || c == '\U{2028}' || c == '\U{2029}' || c == '\U{202F}' || c == '\U{205F}'
    || c == '\U{3000}' || c == '\U{FEFF}'
  }

  /** `\d`: an ASCII decimal digit. */
  predicate IsDigit(c: char) {
    '0' <= c <= '9'
  }

  predicate AllDigits(s: string) {
    forall i :: 0 <= i < |s| ==> IsDigit(s[i])
  }

  predicate NoSpaces(s: string) {
    forall i :: 0 <= i < |s| ==> !IsSpace(s[i])
  }

  /** Every character is white space (the empty string included). */
  predicate IsBlank(s: string) {
    forall i :: 0 <= i < |s| ==> IsSpace(s[i])
  }

  /** `s.replace(/\s/g, '')`. */
  function RemoveSpaces(s: string): (r: string)
    ensures NoSpaces(r) && |r| <= |s|
  {
    if s == [] then []
    else (if IsSpace(s[0]) then [] else [s[0]]) + RemoveSpaces(s[1..])
  }

  /** `s.replace(/\D/g, '')`. */
  function KeepDigits(s: string): (r: string)
    ensures AllDigits(r) && |r| <= |s|
  {
    if s == [] then []
    else (if IsDigit(s[0]) then [s[0]] else []) + KeepDigits(s[1..])
  }

  function TrimStart(s: string): (r: string)
    ensures |r| <= |s| && r == s[|s| - |r|..]
    ensures r == [] || !IsSpace(r[0])
    ensures IsBlank(s[..|s| - |r|])
  {
    if s != [] && IsSpace(s[0]) then TrimStart(s[1..]) else s
  }

  function TrimEnd(s: string): (r: string)
    ensures |r| <= |s| && r == s[..|r|]
    ensures r == [] || !IsSpace(r[|r| - 1])
    ensures IsBlank(s[|r|..])
  {
    if s != [] && IsSpace(s[|s| - 1]) then TrimEnd(s[..|s| - 1]) else s
  }

  /** `s.trim()`. */
  function Trim(s: string): (r: string)
    ensures |r| <= |s|
    ensures r == [] || (!IsSpace(r[0]) && !IsSpace(r[|r| - 1]))
  {
    TrimEnd(TrimStart(s))
  }

  /** A string trims to nothing exactly when it is blank; `!s.trim()` in the
      source therefore means "s is blank". */
  lemma TrimEmptyIffBlank(s: string)
    ensures Trim(s) == [] <==> IsBlank(s)
  {
    var t := TrimStart(s);
    if Trim(s) == [] {
      assert IsBlank(t[|TrimEnd(t)|..]);
      assert t == [];
      forall i | 0 <= i < |s| ensures IsSpace(s[i]) {
        assert s[..|s| - |t|][i] == s[i];
      }
    }
    if IsBlank(s) {
      TrimStartOfBlank(s);
    }
  }

  lemma {:induction false} TrimStartOfBlank(s: string)
    requires IsBlank(s)
    ensures TrimStart(s) == []
  {
    if s != [] {
      TrimStartOfBlank(s[1..]);
    }
  }

  /** A string without white space is left alone by `trim()`. */
  lemma TrimNoSpaces(s: string)
    requires NoSpaces(s)
    ensures Trim(s) == s
  {
  }

  lemma {:induction false} RemoveSpacesAppend(a: string, b: string)
    ensures RemoveSpaces(a + b) == RemoveSpaces(a) + RemoveSpaces(b)
  {
    if a != [] {
      assert (a + b)[1..] == a[1..] + b;
      RemoveSpacesAppend(a[1..], b);
    } else {
      assert a + b == b;
    }
  }

  lemma {:induction false} RemoveSpacesOfNoSpaces(s: string)
    requires NoSpaces(s)
    ensures RemoveSpaces(s) == s
  {
    if s != [] {
      RemoveSpacesOfNoSpaces(s[1..]);
    }
  }

  lemma {:induction false} RemoveSpacesOfBlank(s: string)
    requires IsBlank(s)
    ensures RemoveSpaces(s) == []
  {
    if s != [] {
      RemoveSpacesOfBlank(s[1..]);
    }
  }

  /** A blank string holds no digit, so it matches no digit pattern. */
  lemma BlankIsNotDigits(s: string)
    requires IsBlank(s) && s != []
    ensures !AllDigits(s)
  {
    assert IsSpace(s[0]);
  }

  lemma {:induction false} KeepDigitsOfDigits(s: string)
    requires AllDigits(s)
    ensures KeepDigits(s) == s
  {
    if s != [] {
      KeepDigitsOfDigits(s[1..]);
    }
  }

  /** Digits are not white space. */
  lemma DigitsHaveNoSpaces(s: string)
    requires AllDigits(s)
    ensures NoSpaces(s)
  {
  }

  lemma {:induction false} KeepDigitsAppend(a: string, b: string)
    ensures KeepDigits(a + b) == KeepDigits(a) + KeepDigits(b)
  {
    if a == [] {
      assert a + b == b;
    } else {
      assert (a + b)[1..] == a[1..] + b;
      KeepDigitsAppend(a[1..], b);
    }
  }

  /** Trimming only removes white space, so it leaves the non-space
      characters as they were. */
  lemma RemoveSpacesOfTrim(s: string)
    ensures RemoveSpaces(Trim(s)) == RemoveSpaces(s)
  {
    RemoveSpacesOfTrimStart(s);
    RemoveSpacesOfTrimEnd(TrimStart(s));
  }

  lemma RemoveSpacesOfTrimStart(s: string)
    ensures RemoveSpaces(TrimStart(s)) == RemoveSpaces(s)
  {
    var t := TrimStart(s);
    var lead := s[..|s| - |t|];
    assert s == lead + t;
    RemoveSpacesAppend(lead, t);
    RemoveSpacesOfBlank(lead);
  }

  lemma RemoveSpacesOfTrimEnd(t: string)
    ensures RemoveSpaces(TrimEnd(t)) == RemoveSpaces(t)
  {
    var u := TrimEnd(t);
    var trail := t[|u|..];
    assert t == u + trail;
    RemoveSpacesAppend(u, trail);
    RemoveSpacesOfBlank(trail);
  }
}
